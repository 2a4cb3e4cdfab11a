/**
 compute_pagerank of repute/repute.py as the loops it is written with: the
 derived tables and every round's next-score buffer are built and updated in
 place, and each loop is proved to compute the matching function of RankSpec.
 The database reads are parameters: the ordered identity list, the vouch
 rows, and the artifact rows (`None` when the artifact table is missing).
 */
module PageRank {
  import opened Wrappers
  import opened RankSpec
  import RankFacts

  /** The vouch list with the weight transform applied, row by row. */
  method LoadVouches(rows: seq<Vouch>, timeDecay: bool, factors: seq<real>) returns (vs: seq<Vouch>)
    requires timeDecay ==> |factors| == |rows|
    requires timeDecay ==> forall i :: 0 <= i < |factors| ==> factors[i] >= 0.0
    ensures vs == Effective(rows, timeDecay, factors)
    ensures !timeDecay ==> vs == rows
  {
    vs := [];
    var i := 0;
    while i < |rows|
      invariant 0 <= i <= |rows|
      invariant |vs| == i
      invariant forall j :: 0 <= j < i ==> vs[j] == Effective(rows, timeDecay, factors)[j]
    {
      var val := rows[i].value;
      if timeDecay {
        val := val * factors[i];
      }
      vs := vs + [Vouch(rows[i].source, rows[i].target, val)];
      i := i + 1;
    }
  }

  /** `sv_boost`: 1.0 for everyone, plus the weight of every artifact whose owner is known. */
  method BuildBoosts(ids: seq<Id>, arts: Option<seq<Artifact>>) returns (boost: map<Id, real>)
    ensures boost == Boosts(ids, arts)
  {
    boost := map id | id in ids :: 1.0;
    if arts.Some? {
      var rows := arts.value;
      var i := 0;
      while i < |rows|
        invariant 0 <= i <= |rows|
        invariant boost == Boosts(ids, Some(rows[..i]))
      {
        var owner := rows[i].owner;
        assert rows[..i + 1][..i] == rows[..i];
        if owner in boost {
          boost := boost[owner := boost[owner] + rows[i].weight];
        }
        i := i + 1;
      }
      assert rows[..i] == rows;
    } else {
      assert boost == Boosts(ids, None);
    }
  }

  /** `out_degrees`: 0.0 for everyone, plus the value of every vouch whose source is known. */
  method BuildOutDegrees(ids: seq<Id>, vs: seq<Vouch>) returns (out: map<Id, real>)
    ensures out == OutDegrees(ids, vs)
  {
    out := map id | id in ids :: 0.0;
    var i := 0;
    while i < |vs|
      invariant 0 <= i <= |vs|
      invariant out == OutDegrees(ids, vs[..i])
    {
      var src := vs[i].source;
      assert vs[..i + 1][..i] == vs[..i];
      if src in out {
        out := out[src := out[src] + vs[i].value];
      }
      i := i + 1;
    }
    assert vs[..i] == vs;
  }

  /** The edge-propagation loop: every active vouch adds its contribution to its target. */
  method PropagateVouches(ns: map<Id, real>, vs: seq<Vouch>, scores: map<Id, real>,
                          boost: map<Id, real>, out: map<Id, real>, damping: real)
    returns (next: map<Id, real>)
    requires out.Keys <= scores.Keys
    requires Routable(vs, out, ns)
    ensures next == Propagate(ns, vs, scores, boost, out, damping)
  {
    next := ns;
    var i := 0;
    while i < |vs|
      invariant 0 <= i <= |vs|
      invariant next == Propagate(ns, vs[..i], scores, boost, out, damping)
    {
      var v := vs[i];
      assert vs[..i + 1][..i] == vs[..i] && vs[..i + 1][i] == v;
      assert forall w :: w in vs[..i + 1] ==> w in vs;
      if v.source in out && out[v.source] > 0.0 {
        var gain := damping * (scores[v.source] * BoostOf(boost, v.source)) * (v.value / out[v.source]);
        assert gain == Contribution(v, scores, boost, out, damping);
        next := next[v.target := next[v.target] + gain];
      }
      assert next == Propagate(ns, vs[..i + 1], scores, boost, out, damping);
      i := i + 1;
    }
    assert vs[..i] == vs;
  }

  /** The sink-routing loop over the identities. */
  method RouteSinkMass(ns: map<Id, real>, ids: seq<Id>, seed: Option<Id>, damping: real, sink: real)
    returns (next: map<Id, real>)
    requires ids != [] && Distinct(ids) && KeyedBy(ids, ns)
    ensures next == RouteSink(ns, ids, seed, damping, sink)
  {
    next := ns;
    var n := |ids|;
    var i := 0;
    while i < n
      invariant 0 <= i <= n
      invariant KeyedBy(ids, next)
      invariant forall j :: i <= j < n ==> next[ids[j]] == ns[ids[j]]
      invariant forall j :: 0 <= j < i ==> next[ids[j]] == RouteSink(ns, ids, seed, damping, sink)[ids[j]]
    {
      var id := ids[i];
      RankFacts.DistinctAt(ids, i);
      if Personalized(ids, seed) {
        if id == seed.value {
          next := next[id := next[id] + damping * sink];
        }
      } else {
        next := next[id := next[id] + damping * sink / n as real];
      }
      i := i + 1;
    }
    RankFacts.SameOnIds(ids, next, RouteSink(ns, ids, seed, damping, sink));
  }

  /**
   One pass of the iteration loop: teleport baseline, edge propagation, sink
   routing, normalisation.
   */
  method RunRound(ids: seq<Id>, vs: seq<Vouch>, boost: map<Id, real>, out: map<Id, real>,
                  seed: Option<Id>, damping: real, scores: map<Id, real>)
    returns (next: map<Id, real>)
    requires Graph(ids, vs, boost, out) && Distinct(ids) && KeyedBy(ids, scores)
    ensures next == Round(ids, vs, boost, out, seed, damping, scores)
  {
    var n := |ids|;
    if Personalized(ids, seed) {
      next := (map id | id in ids :: 0.0)[seed.value := 1.0 - damping];
    } else {
      next := map id | id in ids :: (1.0 - damping) / n as real;
    }
    assert next == Teleport(ids, seed, damping);
    next := PropagateVouches(next, vs, scores, boost, out, damping);
    var sink := SinkSum(ids, scores, out);
    next := RouteSinkMass(next, ids, seed, damping, sink);
    next := Normalize(ids, next);
  }

  /** The uniform start, 1/n each, followed by the iteration loop of `rounds` rounds. */
  method RunRounds(ids: seq<Id>, vs: seq<Vouch>, boost: map<Id, real>, out: map<Id, real>,
                   seed: Option<Id>, damping: real, rounds: nat)
    returns (scores: map<Id, real>)
    requires Graph(ids, vs, boost, out) && Distinct(ids)
    ensures scores == Iterate(ids, vs, boost, out, seed, damping, rounds)
  {
    var n := |ids|;
    scores := map id | id in ids :: 1.0 / n as real;
    var k := 0;
    while k < rounds
      invariant 0 <= k <= rounds
      invariant scores == Iterate(ids, vs, boost, out, seed, damping, k)
    {
      RankFacts.IterateStep(ids, vs, boost, out, seed, damping, k);
      scores := RunRound(ids, vs, boost, out, seed, damping, scores);
      k := k + 1;
    }
  }

  /**
   compute_pagerank with the database reads as parameters. An empty identity
   list gives the empty table; otherwise the result is the table after
   `iterations` rounds (none when `iterations` is not positive), and for
   non-negative weights (stored or decayed) and a damping factor in [0, 1)
   it is a probability distribution over the identities. The decay factors
   `0.5 ** (age / 30)` are never negative.
   */
  method ComputePageRank(ids: seq<Id>, rows: seq<Vouch>, timeDecay: bool, factors: seq<real>,
                         arts: Option<seq<Artifact>>, seed: Option<Id>,
                         iterations: int, damping: real)
    returns (scores: map<Id, real>)
    requires Distinct(ids)
    requires timeDecay ==> |factors| == |rows|
    requires timeDecay ==> forall i :: 0 <= i < |factors| ==> factors[i] >= 0.0
    requires TargetsKnown(ids, Effective(rows, timeDecay, factors), iterations)
    ensures scores == PageRank(ids, Effective(rows, timeDecay, factors), arts, seed, damping, iterations)
    ensures ids == [] ==> scores == map[]
    ensures ids != [] && iterations <= 0 ==> scores == Uniform(ids)
    ensures ids != [] && RankFacts.NonNegativeInput(Effective(rows, timeDecay, factors), arts)
            && 0.0 <= damping < 1.0
            ==> RankFacts.Distribution(ids, scores)
    ensures ids != [] && RankFacts.NonNegativeInput(rows, arts) && 0.0 <= damping < 1.0
            ==> RankFacts.Distribution(ids, scores)
  {
    if |ids| == 0 {
      return map[];
    }
    var vs := LoadVouches(rows, timeDecay, factors);
    var boost := BuildBoosts(ids, arts);
    var out := BuildOutDegrees(ids, vs);
    if iterations > 0 {
      RankFacts.TargetsKnownRoutable(ids, vs, iterations);
      scores := RunRounds(ids, vs, boost, out, seed, damping, iterations);
    } else {
      scores := map id | id in ids :: 1.0 / |ids| as real;
    }
    if RankFacts.NonNegativeInput(rows, arts) {
      RankFacts.EffectiveNonNegative(rows, timeDecay, factors, arts);
    }
    if RankFacts.NonNegativeInput(vs, arts) && 0.0 <= damping < 1.0 {
      RankFacts.PageRankIsDistribution(ids, vs, arts, seed, damping, iterations);
    }
  }
}
