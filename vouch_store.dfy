/**
 The write side of repute/repute.py: the identity table (identifier to
 alias) and the vouch table ((source, target) to value), with the upserts of
 `ensure_identity` and `cmd_vouch`. The tables are maps; a vouch is keyed by
 its ordered pair, so writing a pair again replaces its value.
 */
module VouchStore {
  import opened Wrappers
  import opened RankSpec

  type Aliases = map<Id, string>
  type Vouches = map<(Id, Id), real>

  /** `did[:8]`: the first eight characters, or the whole string when shorter. */
  function Prefix8(s: string): (r: string)
    ensures |r| == if |s| < 8 then |s| else 8
    ensures r <= s
  {
    if |s| <= 8 then s else s[..8]
  }

  /** A Python-truthy alias: given and not empty. */
  predicate GivenAlias(alias: Option<string>)
  {
    alias.Some? && alias.value != ""
  }

  /** `INSERT OR REPLACE` into the identity table. */
  function Replace(ids: Aliases, did: Id, alias: string): (r: Aliases)
    ensures did in r && r[did] == alias
    ensures forall x :: x != did ==> (x in r <==> x in ids) && (x in ids ==> r[x] == ids[x])
  {
    ids[did := alias]
  }

  /** `INSERT OR IGNORE` into the identity table: an existing entry wins. */
  function InsertIfAbsent(ids: Aliases, did: Id, alias: string): (r: Aliases)
    ensures did in r && r[did] == if did in ids then ids[did] else alias
    ensures forall x :: x != did ==> (x in r <==> x in ids) && (x in ids ==> r[x] == ids[x])
  {
    if did in ids then ids else ids[did := alias]
  }

  /**
   ensure_identity: a given alias replaces whatever is stored; without one,
   `did[:8]` is stored only for a new identity and an existing alias is kept.
   */
  function Ensured(ids: Aliases, did: Id, alias: Option<string>): (r: Aliases)
    ensures did in r
    ensures GivenAlias(alias) ==> r[did] == alias.value
    ensures !GivenAlias(alias) && did in ids ==> r == ids
    ensures !GivenAlias(alias) && did !in ids ==> r[did] == Prefix8(did)
    ensures forall x :: x != did ==> (x in r <==> x in ids) && (x in ids ==> r[x] == ids[x])
  {
    if GivenAlias(alias) then Replace(ids, did, alias.value) else InsertIfAbsent(ids, did, Prefix8(did))
  }

  /** Every stored vouch names two registered identities. */
  ghost predicate EndpointsRegistered(ids: Aliases, vouches: Vouches)
  {
    forall e :: e in vouches ==> e.0 in ids && e.1 in ids
  }

  class Store {
    var identities: Aliases
    var vouches: Vouches

    ghost predicate Valid()
      reads this
    {
      EndpointsRegistered(identities, vouches)
    }

    constructor ()
      ensures Valid()
      ensures identities == map[] && vouches == map[]
    {
      identities := map[];
      vouches := map[];
    }

    /** `INSERT OR REPLACE INTO identities`. */
    method ReplaceIdentity(did: Id, alias: string)
      modifies this
      ensures identities == Replace(old(identities), did, alias)
      ensures vouches == old(vouches)
      ensures old(Valid()) ==> Valid()
    {
      identities := identities[did := alias];
    }

    /** `INSERT OR IGNORE INTO identities`. */
    method InsertIdentity(did: Id, alias: string)
      modifies this
      ensures identities == InsertIfAbsent(old(identities), did, alias)
      ensures vouches == old(vouches)
      ensures old(Valid()) ==> Valid()
    {
      if did !in identities {
        identities := identities[did := alias];
      }
    }

    /** `INSERT OR REPLACE INTO vouches`: the pair's earlier value, if any, is replaced. */
    method PutVouch(source: Id, target: Id, value: real)
      requires Valid() && source in identities && target in identities
      modifies this
      ensures Valid()
      ensures identities == old(identities)
      ensures vouches == old(vouches)[(source, target) := value]
    {
      vouches := vouches[(source, target) := value];
    }

    /** ensure_identity */
    method EnsureIdentity(did: Id, alias: Option<string>)
      modifies this
      ensures identities == Ensured(old(identities), did, alias)
      ensures vouches == old(vouches)
      ensures old(Valid()) ==> Valid()
    {
      if GivenAlias(alias) {
        ReplaceIdentity(did, alias.value);
      } else {
        InsertIdentity(did, Prefix8(did));
      }
    }

    /**
     The upserts of cmd_vouch: both endpoints are registered without an
     alias (so existing aliases stay), then the vouch is written.
     */
    method CmdVouch(source: Id, target: Id, value: real)
      requires Valid()
      modifies this
      ensures Valid()
      ensures identities == Ensured(Ensured(old(identities), source, None), target, None)
      ensures vouches == old(vouches)[(source, target) := value]
      ensures forall x :: x in old(identities) ==> x in identities && identities[x] == old(identities)[x]
    {
      EnsureIdentity(source, None);
      EnsureIdentity(target, None);
      PutVouch(source, target, value);
    }
  }

  /**
   The engine's precondition holds for tables written through these
   upserts: any listing of the stored vouches, with or without decay, names
   only registered targets, so the target update never meets an unknown key.
   */
  lemma StoreFeedsEngine(aliases: Aliases, vouches: Vouches, ids: seq<Id>, rows: seq<Vouch>,
                         timeDecay: bool, factors: seq<real>, rounds: int)
    requires EndpointsRegistered(aliases, vouches)
    requires forall id :: id in ids <==> id in aliases
    requires forall v :: v in rows ==> (v.source, v.target) in vouches
    requires timeDecay ==> |factors| == |rows|
    ensures TargetsKnown(ids, Effective(rows, timeDecay, factors), rounds)
  {
    var vs := Effective(rows, timeDecay, factors);
    forall v | v in vs
      ensures v.target in ids
    {
      var i :| 0 <= i < |vs| && vs[i] == v;
      assert rows[i] in rows;
    }
  }
}
