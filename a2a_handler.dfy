/**
 process_repute_payload of repute/a2a_handler.py: an incoming message
 payload is checked by early returns and, when it is a complete vouch
 request, recorded through three upserts into the identity and vouch tables.
 The database write is one transaction that is committed only at the end,
 so a payload that raises on the way leaves both tables as they were.
 */
module A2AHandler {
  import opened Wrappers
  import opened RankSpec
  import opened VouchStore

  /** A decoded JSON value. */
  datatype Json =
    | JNull
    | JBool(b: bool)
    | JNum(x: real)
    | JStr(s: string)
    | JArray(items: seq<Json>)
    | JObject(fields: map<string, Json>)

  /** Python truthiness of a decoded JSON value. */
  predicate Truthy(v: Json)
  {
    match v
    case JNull => false
    case JBool(b) => b
    case JNum(x) => x != 0.0
    case JStr(s) => s != ""
    case JArray(items) => items != []
    case JObject(fields) => fields != map[]
  }

  /** `data.get(key)` on an object: a missing key reads as None. */
  function Get(fields: map<string, Json>, key: string): Json
  {
    if key in fields then fields[key] else JNull
  }

  const VouchType: string := "repute_vouch"

  /** What the handler returns. */
  datatype Reply =
    | Ignored                               // None: not a vouch message
    | MissingFields                         // {"error": "missing_required_fields"}
    | Recorded(source: Id, target: Id)      // {"status": "success", "action": "vouch_recorded", ...}
    | Raised                                // {"error": str(e)}: an exception while writing

  /** The dictionary the handler returns, for every reply that does not carry an exception text. */
  function ReplyJson(r: Reply): (j: Option<Json>)
    requires !r.Raised?
    ensures j.None? <==> r.Ignored?
  {
    match r
    case Ignored => None
    case MissingFields => Some(JObject(map["error" := JStr("missing_required_fields")]))
    case Recorded(source, target) =>
      Some(JObject(map["status" := JStr("success"), "action" := JStr("vouch_recorded"),
                       "source" := JStr(source), "target" := JStr(target)]))
  }

  /** The outcome of the validation prefix. */
  datatype Check =
    | NotForUs
    | Incomplete
    | Complete(source: Json, target: Json, value: Json, alias: Json)

  /**
   The early returns: anything but an object, or an object whose `type` is
   not exactly "repute_vouch", is not for this handler; a falsy source or
   target, or a missing or null value, is incomplete (a value of 0 is fine).
   */
  function Validate(data: Json): (c: Check)
    ensures c.NotForUs? <==> !data.JObject? || Get(data.fields, "type") != JStr(VouchType)
    ensures c.Incomplete? <==>
      && data.JObject? && Get(data.fields, "type") == JStr(VouchType)
      && (!Truthy(Get(data.fields, "source")) || !Truthy(Get(data.fields, "target"))
          || Get(data.fields, "value") == JNull)
    ensures c.Complete? ==> c == Complete(Get(data.fields, "source"), Get(data.fields, "target"),
                                          Get(data.fields, "value"), Get(data.fields, "alias"))
  {
    if !data.JObject? then NotForUs
    else
      var fields := data.fields;
      if Get(fields, "type") != JStr(VouchType) then NotForUs
      else
        var source, target := Get(fields, "source"), Get(fields, "target");
        var value, alias := Get(fields, "value"), Get(fields, "alias");
        if !Truthy(source) || !Truthy(target) || value == JNull then Incomplete
        else Complete(source, target, value, alias)
  }

  /**
   `float(value)`. Numbers convert to themselves and booleans to 1.0 or 0.0;
   the conversion of a string is the parameter `parseFloat`; anything else
   raises.
   */
  function ToFloat(v: Json, parseFloat: string -> Option<real>): (r: Option<real>)
    ensures v.JNum? ==> r == Some(v.x)
    ensures v.JBool? ==> r == Some(if v.b then 1.0 else 0.0)
    ensures v.JNull? || v.JArray? || v.JObject? ==> r.None?
  {
    match v
    case JNum(x) => Some(x)
    case JBool(b) => Some(if b then 1.0 else 0.0)
    case JStr(s) => parseFloat(s)
    case _ => None
  }

  /**
   The alias written for the source: the given alias if truthy, else
   `source[:8]`. A truthy alias that is not a string cannot be stored.
   */
  function SourceAlias(source: Id, alias: Json): (r: Option<string>)
    ensures r.Some? <==> !Truthy(alias) || alias.JStr?
    ensures !Truthy(alias) ==> r == Some(Prefix8(source))
    ensures Truthy(alias) && r.Some? ==> r.value == alias.s && r.value != ""
  {
    if !Truthy(alias) then Some(Prefix8(source))
    else if alias.JStr? then Some(alias.s)
    else None
  }

  /**
   The whole handler on table values: the reply and the two tables
   afterwards. Only a recorded vouch changes anything, and then exactly
   three entries are written: the source with its alias (always replaced),
   the target with `target[:8]` (only when new), and the vouch.
   */
  function Handle(aliases: Aliases, vouches: Vouches, data: Json,
                  parseFloat: string -> Option<real>): (res: (Reply, Aliases, Vouches))
    ensures !res.0.Recorded? ==> res.1 == aliases && res.2 == vouches
    ensures res.0 == Ignored <==> Validate(data).NotForUs?
    ensures res.0 == MissingFields <==> Validate(data).Incomplete?
    ensures res.0.Recorded? <==>
      && Validate(data).Complete?
      && Get(data.fields, "source").JStr? && Get(data.fields, "target").JStr?
      && SourceAlias(Get(data.fields, "source").s, Get(data.fields, "alias")).Some?
      && ToFloat(Get(data.fields, "value"), parseFloat).Some?
    ensures res.0.Recorded? ==>
      && data.JObject?
      && Get(data.fields, "source") == JStr(res.0.source)
      && Get(data.fields, "target") == JStr(res.0.target)
      && SourceAlias(res.0.source, Get(data.fields, "alias")).Some?
      && ToFloat(Get(data.fields, "value"), parseFloat).Some?
      && res.1 == InsertIfAbsent(Replace(aliases, res.0.source,
                                         SourceAlias(res.0.source, Get(data.fields, "alias")).value),
                                 res.0.target, Prefix8(res.0.target))
      && res.2 == vouches[(res.0.source, res.0.target) := ToFloat(Get(data.fields, "value"), parseFloat).value]
    ensures EndpointsRegistered(aliases, vouches) ==> EndpointsRegistered(res.1, res.2)
  {
    match Validate(data)
    case NotForUs => (Ignored, aliases, vouches)
    case Incomplete => (MissingFields, aliases, vouches)
    case Complete(source, target, value, alias) =>
      if !source.JStr? || !target.JStr? then (Raised, aliases, vouches)
      else
        var srcAlias := SourceAlias(source.s, alias);
        var val := ToFloat(value, parseFloat);
        if srcAlias.None? || val.None? then (Raised, aliases, vouches)
        else
          var a := InsertIfAbsent(Replace(aliases, source.s, srcAlias.value), target.s, Prefix8(target.s));
          (Recorded(source.s, target.s), a, vouches[(source.s, target.s) := val.value])
  }

  /**
   process_repute_payload against the tables of `store`: the reply and the
   new tables are those of Handle.
   */
  method ProcessPayload(store: Store, data: Json, parseFloat: string -> Option<real>)
    returns (reply: Reply)
    requires store.Valid()
    modifies store
    ensures store.Valid()
    ensures (reply, store.identities, store.vouches)
            == Handle(old(store.identities), old(store.vouches), data, parseFloat)
  {
    var check := Validate(data);
    if check.NotForUs? {
      return Ignored;
    }
    if check.Incomplete? {
      return MissingFields;
    }
    var source, target, value, alias := check.source, check.target, check.value, check.alias;
    if !source.JStr? || !target.JStr? {
      return Raised;
    }
    var srcAlias := SourceAlias(source.s, alias);
    var val := ToFloat(value, parseFloat);
    if srcAlias.None? || val.None? {
      return Raised;
    }
    store.ReplaceIdentity(source.s, srcAlias.value);
    store.InsertIdentity(target.s, Prefix8(target.s));
    store.PutVouch(source.s, target.s, val.value);
    reply := Recorded(source.s, target.s);
  }

  // -----------------------------------------------------------------------
  // Properties of the handler

  /** A value of 0 is a present value: the vouch is recorded with 0.0. */
  lemma ZeroValueIsRecorded(aliases: Aliases, vouches: Vouches, source: Id, target: Id,
                            parseFloat: string -> Option<real>)
    requires source != "" && target != ""
    ensures var data := JObject(map["type" := JStr(VouchType), "source" := JStr(source),
                                    "target" := JStr(target), "value" := JNum(0.0)]);
            var res := Handle(aliases, vouches, data, parseFloat);
            res.0 == Recorded(source, target) && res.2 == vouches[(source, target) := 0.0]
  {
  }

  /**
   The two write paths differ on an existing identity without a given alias:
   ensure_identity keeps the stored alias, the handler overwrites the source's
   alias with `source[:8]`.
   */
  lemma HandlerOverwritesWhereEnsureKeeps(aliases: Aliases, vouches: Vouches, source: Id, target: Id,
                                          value: real, parseFloat: string -> Option<real>)
    requires source in aliases && aliases[source] != Prefix8(source)
    requires source != "" && target != ""
    ensures Ensured(aliases, source, None)[source] == aliases[source]
    ensures var data := JObject(map["type" := JStr(VouchType), "source" := JStr(source),
                                    "target" := JStr(target), "value" := JNum(value)]);
            var res := Handle(aliases, vouches, data, parseFloat);
            res.0.Recorded? && res.1[source] == Prefix8(source) != aliases[source]
  {
    var data := JObject(map["type" := JStr(VouchType), "source" := JStr(source),
                            "target" := JStr(target), "value" := JNum(value)]);
    assert Get(data.fields, "alias") == JNull;
  }

  /** A target that is already registered keeps its alias (unless it is also the source). */
  lemma TargetAliasPreserved(aliases: Aliases, vouches: Vouches, data: Json,
                             parseFloat: string -> Option<real>)
    ensures var res := Handle(aliases, vouches, data, parseFloat);
            res.0.Recorded? && res.0.target in aliases && res.0.target != res.0.source
            ==> res.1[res.0.target] == aliases[res.0.target]
  {
  }
}
