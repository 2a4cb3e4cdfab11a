/**
 The trust-scoring engine of repute/repute.py, stated as pure functions.

 The engine works on dictionaries keyed by identity; here they are maps keyed
 by `Id`. The ordered identity list read from the identity table is a
 sequence of distinct identifiers, and every score table has exactly those
 identifiers as keys. Scores are reals: floating-point rounding is not
 modelled.
 */
module RankSpec {
  import opened Wrappers

  type Id = string

  /** One row of the vouch table after the weight transform. */
  datatype Vouch = Vouch(source: Id, target: Id, value: real)

  /** One row of the artifact table. */
  datatype Artifact = Artifact(owner: Id, weight: real)

  /** No identity occurs twice (identities are the identity table's key). */
  predicate Distinct(ids: seq<Id>)
  {
    ids == [] || (ids[0] !in ids[1..] && Distinct(ids[1..]))
  }

  /** A table that has an entry for every identity of `ids`. */
  predicate Covers(ids: seq<Id>, m: map<Id, real>)
  {
    forall id :: id in ids ==> id in m
  }

  /** A table whose keys are exactly the identities of `ids`. */
  ghost predicate KeyedBy(ids: seq<Id>, m: map<Id, real>)
  {
    forall id :: id in m <==> id in ids
  }

  /** The same value for every identity: `{id: v for id in identities}`. */
  function Constant(ids: seq<Id>, v: real): (m: map<Id, real>)
    ensures KeyedBy(ids, m)
  {
    map id | id in ids :: v
  }

  /** The starting scores: `{id: 1.0/n for id in identities}`. */
  function Uniform(ids: seq<Id>): (m: map<Id, real>)
    requires ids != []
    ensures KeyedBy(ids, m)
  {
    Constant(ids, 1.0 / |ids| as real)
  }

  /** Sum of the table's entries over the identities, in order. */
  function Sum(ids: seq<Id>, m: map<Id, real>): real
    requires Covers(ids, m)
  {
    if ids == [] then 0.0 else m[ids[0]] + Sum(ids[1..], m)
  }

  // ---------------------------------------------------------------------
  // Weight transform

  /**
   The effective vouch list: with time decay off every row keeps its stored
   value; with decay on the value is multiplied by the row's decay factor
   (the half-life factor computed from the row's age).
   */
  function Effective(rows: seq<Vouch>, timeDecay: bool, factors: seq<real>): (vs: seq<Vouch>)
    requires timeDecay ==> |factors| == |rows|
    ensures |vs| == |rows|
    ensures forall i :: 0 <= i < |rows| ==> vs[i].source == rows[i].source && vs[i].target == rows[i].target
    ensures !timeDecay ==> vs == rows
    ensures timeDecay ==> forall i :: 0 <= i < |rows| ==> vs[i].value == rows[i].value * factors[i]
  {
    seq(|rows|, i requires 0 <= i < |rows| =>
      Vouch(rows[i].source, rows[i].target,
            if timeDecay then rows[i].value * factors[i] else rows[i].value))
  }

  // ---------------------------------------------------------------------
  // Derived tables

  /** Total value of the vouches whose source is `id`. */
  function OutDegree(vs: seq<Vouch>, id: Id): real
  {
    if vs == [] then 0.0
    else OutDegree(vs[..|vs| - 1], id)
         + (if vs[|vs| - 1].source == id then vs[|vs| - 1].value else 0.0)
  }

  /** The out-degree table: one entry per identity. */
  function OutDegrees(ids: seq<Id>, vs: seq<Vouch>): (out: map<Id, real>)
    ensures KeyedBy(ids, out)
  {
    map id | id in ids :: OutDegree(vs, id)
  }

  /** Total weight of the artifacts owned by `id`. */
  function ArtifactWeight(arts: seq<Artifact>, id: Id): real
  {
    if arts == [] then 0.0
    else ArtifactWeight(arts[..|arts| - 1], id)
         + (if arts[|arts| - 1].owner == id then arts[|arts| - 1].weight else 0.0)
  }

  /**
   The boost table. `None` stands for an artifact table that does not exist
   (the query raises and is ignored), which leaves every boost at 1.0.
   */
  function Boosts(ids: seq<Id>, arts: Option<seq<Artifact>>): (boost: map<Id, real>)
    ensures KeyedBy(ids, boost)
  {
    map id | id in ids :: 1.0 + (if arts.Some? then ArtifactWeight(arts.value, id) else 0.0)
  }

  /** `sv_boost.get(src, 1.0)` */
  function BoostOf(boost: map<Id, real>, id: Id): real
  {
    if id in boost then boost[id] else 1.0
  }

  // ---------------------------------------------------------------------
  // One round of the power iteration

  /** Personalised mode: the seed is truthy (non-empty) and a known identity. */
  predicate Personalized(ids: seq<Id>, seed: Option<Id>)
  {
    seed.Some? && seed.value != "" && seed.value in ids
  }

  /** The teleport baseline that starts every round. */
  function Teleport(ids: seq<Id>, seed: Option<Id>, damping: real): (m: map<Id, real>)
    requires ids != []
    ensures KeyedBy(ids, m)
  {
    if Personalized(ids, seed) then Constant(ids, 0.0)[seed.value := 1.0 - damping]
    else Constant(ids, (1.0 - damping) / |ids| as real)
  }

  /** A vouch propagates score only when its source has positive out-degree. */
  predicate Active(out: map<Id, real>, v: Vouch)
  {
    v.source in out && out[v.source] > 0.0
  }

  /** Every vouch that propagates has a target the score table knows. */
  predicate Routable(vs: seq<Vouch>, out: map<Id, real>, keys: map<Id, real>)
  {
    forall v :: v in vs && Active(out, v) ==> v.target in keys
  }

  /** What an active vouch adds to its target: never negative when nothing in it is. */
  function Contribution(v: Vouch, scores: map<Id, real>, boost: map<Id, real>,
                        out: map<Id, real>, damping: real): (c: real)
    requires Active(out, v) && v.source in scores
    ensures damping >= 0.0 && v.value >= 0.0 && scores[v.source] >= 0.0 && BoostOf(boost, v.source) >= 0.0
            ==> c >= 0.0
  {
    var held := scores[v.source] * BoostOf(boost, v.source);
    var share := v.value / out[v.source];
    assert held >= 0.0 && share >= 0.0 ==> damping * held >= 0.0 ==> damping * held * share >= 0.0;
    damping * held * share
  }

  /** Edge propagation: every active vouch, in order, adds its contribution to its target. */
  function Propagate(ns: map<Id, real>, vs: seq<Vouch>, scores: map<Id, real>,
                     boost: map<Id, real>, out: map<Id, real>, damping: real): (r: map<Id, real>)
    requires out.Keys <= scores.Keys
    requires Routable(vs, out, ns)
    ensures r.Keys == ns.Keys
  {
    if vs == [] then ns
    else
      var prev := Propagate(ns, vs[..|vs| - 1], scores, boost, out, damping);
      var v := vs[|vs| - 1];
      if Active(out, v) then prev[v.target := prev[v.target] + Contribution(v, scores, boost, out, damping)]
      else prev
  }

  /** The score held by identities whose out-degree is exactly zero; none when nobody is a sink. */
  function SinkSum(ids: seq<Id>, scores: map<Id, real>, out: map<Id, real>): (sink: real)
    requires Covers(ids, scores) && Covers(ids, out)
    ensures (forall id :: id in ids ==> out[id] != 0.0) ==> sink == 0.0
  {
    if ids == [] then 0.0
    else (if out[ids[0]] == 0.0 then scores[ids[0]] else 0.0) + SinkSum(ids[1..], scores, out)
  }

  /** Routing of `damping * sink`: all to the seed, or an equal share to everyone. */
  function RouteSink(ns: map<Id, real>, ids: seq<Id>, seed: Option<Id>,
                     damping: real, sink: real): (r: map<Id, real>)
    requires ids != [] && KeyedBy(ids, ns)
    ensures KeyedBy(ids, r)
  {
    if Personalized(ids, seed) then ns[seed.value := ns[seed.value] + damping * sink]
    else map id | id in ns :: ns[id] + damping * sink / |ids| as real
  }

  /** Division by the total when it is positive; otherwise the raw values are kept. */
  function Normalize(ids: seq<Id>, ns: map<Id, real>): (r: map<Id, real>)
    requires KeyedBy(ids, ns)
    ensures KeyedBy(ids, r)
  {
    var norm := Sum(ids, ns);
    if norm > 0.0 then map id | id in ns :: ns[id] / norm else ns
  }

  /** Everything one round needs besides the scores. */
  ghost predicate Graph(ids: seq<Id>, vs: seq<Vouch>, boost: map<Id, real>, out: map<Id, real>)
  {
    && ids != []
    && KeyedBy(ids, out)
    && KeyedBy(ids, boost)
    && Routable(vs, out, Constant(ids, 0.0))
  }

  function Round(ids: seq<Id>, vs: seq<Vouch>, boost: map<Id, real>, out: map<Id, real>,
                 seed: Option<Id>, damping: real, scores: map<Id, real>): (r: map<Id, real>)
    requires Graph(ids, vs, boost, out) && KeyedBy(ids, scores)
    ensures KeyedBy(ids, r)
  {
    var base := Teleport(ids, seed, damping);
    var spread := Propagate(base, vs, scores, boost, out, damping);
    Normalize(ids, RouteSink(spread, ids, seed, damping, SinkSum(ids, scores, out)))
  }

  /** The scores after `k` rounds, starting from the uniform 1/n. */
  function Iterate(ids: seq<Id>, vs: seq<Vouch>, boost: map<Id, real>, out: map<Id, real>,
                   seed: Option<Id>, damping: real, k: nat): (r: map<Id, real>)
    requires Graph(ids, vs, boost, out)
    ensures KeyedBy(ids, r)
  {
    if k == 0 then Uniform(ids)
    else Round(ids, vs, boost, out, seed, damping, Iterate(ids, vs, boost, out, seed, damping, k - 1))
  }

  /**
   What the engine may be called with: a propagating vouch must name a known
   target (otherwise the update of `new_scores[tgt]` raises), which matters
   only when at least one round runs.
   */
  ghost predicate TargetsKnown(ids: seq<Id>, vs: seq<Vouch>, rounds: int)
  {
    rounds > 0 ==>
      forall v :: v in vs && v.source in ids && OutDegree(vs, v.source) > 0.0 ==> v.target in ids
  }

  /** The whole engine: empty identity list gives `{}`, otherwise `rounds` rounds. */
  function PageRank(ids: seq<Id>, vs: seq<Vouch>, arts: Option<seq<Artifact>>,
                    seed: Option<Id>, damping: real, rounds: int): (r: map<Id, real>)
    requires TargetsKnown(ids, vs, rounds)
    ensures ids != [] ==> KeyedBy(ids, r)
  {
    if ids == [] then map[]
    else if rounds <= 0 then Uniform(ids)
    else Iterate(ids, vs, Boosts(ids, arts), OutDegrees(ids, vs), seed, damping, rounds)
  }
}
