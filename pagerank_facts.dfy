/**
 Properties of the trust-scoring engine of repute/repute.py, proved about the
 functions of RankSpec.
 */
module RankFacts {
  import opened Wrappers
  import opened RankSpec

  // ---------------------------------------------------------------------
  // Vocabulary

  /** Every vouch value and every artifact weight is non-negative. */
  ghost predicate NonNegativeInput(vs: seq<Vouch>, arts: Option<seq<Artifact>>)
  {
    && (forall v :: v in vs ==> v.value >= 0.0)
    && (arts.Some? ==> forall a :: a in arts.value ==> a.weight >= 0.0)
  }

  /** Non-negative stored weights stay non-negative under non-negative decay factors. */
  lemma EffectiveNonNegative(rows: seq<Vouch>, timeDecay: bool, factors: seq<real>,
                             arts: Option<seq<Artifact>>)
    requires timeDecay ==> |factors| == |rows|
    requires timeDecay ==> forall i :: 0 <= i < |factors| ==> factors[i] >= 0.0
    requires NonNegativeInput(rows, arts)
    ensures NonNegativeInput(Effective(rows, timeDecay, factors), arts)
  {
    var vs := Effective(rows, timeDecay, factors);
    forall v | v in vs
      ensures v.value >= 0.0
    {
      var i :| 0 <= i < |vs| && vs[i] == v;
      assert rows[i] in rows;
    }
  }

  ghost predicate NonNegative(m: map<Id, real>)
  {
    forall id :: id in m ==> m[id] >= 0.0
  }

  /** A probability distribution over the identities. */
  ghost predicate Distribution(ids: seq<Id>, m: map<Id, real>)
  {
    KeyedBy(ids, m) && NonNegative(m) && Sum(ids, m) == 1.0
  }

  /** The total contribution that active vouches send to `t`. */
  function Inflow(vs: seq<Vouch>, t: Id, scores: map<Id, real>, boost: map<Id, real>,
                  out: map<Id, real>, damping: real): real
    requires out.Keys <= scores.Keys
  {
    if vs == [] then 0.0
    else
      var v := vs[|vs| - 1];
      Inflow(vs[..|vs| - 1], t, scores, boost, out, damping)
      + (if Active(out, v) && v.target == t then Contribution(v, scores, boost, out, damping) else 0.0)
  }

  // ---------------------------------------------------------------------
  // Sums over the identity list

  lemma SameOnIds(ids: seq<Id>, a: map<Id, real>, b: map<Id, real>)
    requires KeyedBy(ids, a) && KeyedBy(ids, b)
    requires forall j :: 0 <= j < |ids| ==> a[ids[j]] == b[ids[j]]
    ensures a == b
  {
    forall id | id in a
      ensures a[id] == b[id]
    {
      var j :| 0 <= j < |ids| && ids[j] == id;
    }
  }

  lemma {:induction false} SumConstant(ids: seq<Id>, m: map<Id, real>, v: real)
    requires Covers(ids, m)
    requires forall id :: id in ids ==> m[id] == v
    ensures Sum(ids, m) == |ids| as real * v
  {
    if ids != [] {
      SumConstant(ids[1..], m, v);
    }
  }

  lemma {:induction false} SumMonotone(ids: seq<Id>, a: map<Id, real>, b: map<Id, real>)
    requires Covers(ids, a) && Covers(ids, b)
    requires forall id :: id in ids ==> a[id] <= b[id]
    ensures Sum(ids, a) <= Sum(ids, b)
  {
    if ids != [] {
      SumMonotone(ids[1..], a, b);
    }
  }

  lemma {:induction false} SumScale(ids: seq<Id>, m: map<Id, real>, r: map<Id, real>, c: real)
    requires Covers(ids, m) && Covers(ids, r) && c != 0.0
    requires forall id :: id in ids ==> r[id] == m[id] / c
    ensures Sum(ids, r) == Sum(ids, m) / c
  {
    if ids != [] {
      SumScale(ids[1..], m, r, c);
    }
  }

  /** No identity occurs at two positions of a distinct list. */
  lemma {:induction false} DistinctIndices(ids: seq<Id>)
    requires Distinct(ids)
    ensures forall i, j :: 0 <= i < j < |ids| ==> ids[i] != ids[j]
  {
    if ids != [] {
      DistinctIndices(ids[1..]);
      forall i, j | 0 <= i < j < |ids|
        ensures ids[i] != ids[j]
      {
        if i == 0 {
          assert ids[j] == ids[1..][j - 1];
        } else {
          assert ids[i] == ids[1..][i - 1] && ids[j] == ids[1..][j - 1];
        }
      }
    }
  }

  /** In a distinct list, the identity at position `i` occurs at no other position. */
  lemma DistinctAt(ids: seq<Id>, i: int)
    requires Distinct(ids) && 0 <= i < |ids|
    ensures forall j :: 0 <= j < |ids| && j != i ==> ids[j] != ids[i]
  {
    DistinctIndices(ids);
  }

  /** A table that is zero everywhere except at `s` sums to its value at `s`. */
  lemma {:induction false} SumPoint(ids: seq<Id>, m: map<Id, real>, s: Id)
    requires Distinct(ids) && Covers(ids, m) && s in ids
    requires forall id :: id in ids && id != s ==> m[id] == 0.0
    ensures Sum(ids, m) == m[s]
  {
    if ids[0] == s {
      assert forall id :: id in ids[1..] ==> id != s;
      SumConstant(ids[1..], m, 0.0);
    } else {
      SumPoint(ids[1..], m, s);
    }
  }

  // ---------------------------------------------------------------------
  // Derived tables

  /** Out-degree is additive over a split of the vouch list. */
  lemma {:induction false} OutDegreeAppend(a: seq<Vouch>, b: seq<Vouch>, id: Id)
    ensures OutDegree(a + b, id) == OutDegree(a, id) + OutDegree(b, id)
  {
    if b != [] {
      assert (a + b)[..|a + b| - 1] == a + b[..|b| - 1];
      OutDegreeAppend(a, b[..|b| - 1], id);
    } else {
      assert a + b == a;
    }
  }

  /** An identity that vouches for nobody has out-degree zero: it is a sink. */
  lemma {:induction false} OutDegreeOfNonSource(vs: seq<Vouch>, id: Id)
    requires forall v :: v in vs ==> v.source != id
    ensures OutDegree(vs, id) == 0.0
  {
    if vs != [] {
      assert forall v :: v in vs[..|vs| - 1] ==> v in vs;
      OutDegreeOfNonSource(vs[..|vs| - 1], id);
    }
  }

  /** With non-negative values, out-degrees are non-negative. */
  lemma {:induction false} OutDegreeNonNegative(vs: seq<Vouch>, id: Id)
    requires forall v :: v in vs ==> v.value >= 0.0
    ensures OutDegree(vs, id) >= 0.0
  {
    if vs != [] {
      assert forall v :: v in vs[..|vs| - 1] ==> v in vs;
      OutDegreeNonNegative(vs[..|vs| - 1], id);
    }
  }

  /** A vouch from an unknown source leaves the out-degree table unchanged. */
  lemma UnknownSourceAddsNothing(ids: seq<Id>, vs: seq<Vouch>, v: Vouch)
    requires v.source !in ids
    ensures OutDegrees(ids, vs + [v]) == OutDegrees(ids, vs)
  {
    forall id | id in ids
      ensures OutDegree(vs + [v], id) == OutDegree(vs, id)
    {
      assert (vs + [v])[..|vs + [v]| - 1] == vs;
    }
  }

  lemma {:induction false} ArtifactWeightNonNegative(arts: seq<Artifact>, id: Id)
    requires forall a :: a in arts ==> a.weight >= 0.0
    ensures ArtifactWeight(arts, id) >= 0.0
  {
    if arts != [] {
      assert forall a :: a in arts[..|arts| - 1] ==> a in arts;
      ArtifactWeightNonNegative(arts[..|arts| - 1], id);
    }
  }

  /** With non-negative artifact weights every boost is at least the neutral 1.0. */
  lemma BoostsAtLeastOne(ids: seq<Id>, arts: Option<seq<Artifact>>)
    requires arts.Some? ==> forall a :: a in arts.value ==> a.weight >= 0.0
    ensures forall id :: id in ids ==> Boosts(ids, arts)[id] >= 1.0
  {
    if arts.Some? {
      forall id | id in ids
        ensures Boosts(ids, arts)[id] >= 1.0
      {
        ArtifactWeightNonNegative(arts.value, id);
      }
    }
  }

  /**
   A missing artifact table and an empty one give the same boosts: 1.0 for
   everyone; artifacts with unknown owners change nothing.
   */
  lemma BoostsWithoutKnownOwners(ids: seq<Id>, arts: seq<Artifact>)
    requires forall a :: a in arts ==> a.owner !in ids
    ensures Boosts(ids, Some(arts)) == Boosts(ids, None) == Constant(ids, 1.0)
  {
    forall id | id in ids
      ensures ArtifactWeight(arts, id) == 0.0
    {
      ArtifactWeightOfNonOwner(arts, id);
    }
  }

  /** An artifact whose owner is not a known identity changes no boost. */
  lemma UnknownOwnerAddsNothing(ids: seq<Id>, arts: seq<Artifact>, a: Artifact)
    requires a.owner !in ids
    ensures Boosts(ids, Some(arts + [a])) == Boosts(ids, Some(arts))
  {
    forall id | id in ids
      ensures ArtifactWeight(arts + [a], id) == ArtifactWeight(arts, id)
    {
      assert (arts + [a])[..|arts + [a]| - 1] == arts;
    }
  }

  /** Artifacts owned by others add nothing to an identity. */
  lemma {:induction false} ArtifactWeightOfNonOwner(arts: seq<Artifact>, id: Id)
    requires forall a :: a in arts ==> a.owner != id
    ensures ArtifactWeight(arts, id) == 0.0
  {
    if arts != [] {
      assert forall a :: a in arts[..|arts| - 1] ==> a in arts;
      ArtifactWeightOfNonOwner(arts[..|arts| - 1], id);
    }
  }

  // ---------------------------------------------------------------------
  // One round

  /** The edge-propagation step adds to each target exactly its inflow. */
  lemma {:induction false} PropagateAddsInflow(ns: map<Id, real>, vs: seq<Vouch>, scores: map<Id, real>,
                                               boost: map<Id, real>, out: map<Id, real>, damping: real, t: Id)
    requires out.Keys <= scores.Keys
    requires Routable(vs, out, ns)
    requires t in ns
    ensures Propagate(ns, vs, scores, boost, out, damping)[t] == ns[t] + Inflow(vs, t, scores, boost, out, damping)
  {
    if vs != [] {
      assert forall v :: v in vs[..|vs| - 1] ==> v in vs;
      PropagateAddsInflow(ns, vs[..|vs| - 1], scores, boost, out, damping, t);
    }
  }

  /** With non-negative inputs, propagation only adds score. */
  lemma {:induction false} PropagateGrows(ns: map<Id, real>, vs: seq<Vouch>, scores: map<Id, real>,
                                          boost: map<Id, real>, out: map<Id, real>, damping: real)
    requires out.Keys <= scores.Keys
    requires Routable(vs, out, ns)
    requires damping >= 0.0 && NonNegative(scores) && NonNegative(boost)
    requires forall v :: v in vs ==> v.value >= 0.0
    ensures forall id :: id in ns ==> Propagate(ns, vs, scores, boost, out, damping)[id] >= ns[id]
  {
    if vs != [] {
      var init := vs[..|vs| - 1];
      assert forall v :: v in init ==> v in vs;
      PropagateGrows(ns, init, scores, boost, out, damping);
    }
  }

  lemma {:induction false} SinkSumNonNegative(ids: seq<Id>, scores: map<Id, real>, out: map<Id, real>)
    requires Covers(ids, scores) && Covers(ids, out) && NonNegative(scores)
    ensures SinkSum(ids, scores, out) >= 0.0
  {
    if ids != [] {
      SinkSumNonNegative(ids[1..], scores, out);
    }
  }

  /** When nobody has outgoing weight, all of the held score is sink mass. */
  lemma {:induction false} SinkSumAllDangling(ids: seq<Id>, scores: map<Id, real>, out: map<Id, real>)
    requires Covers(ids, scores) && Covers(ids, out)
    requires forall id :: id in ids ==> out[id] == 0.0
    ensures SinkSum(ids, scores, out) == Sum(ids, scores)
  {
    if ids != [] {
      SinkSumAllDangling(ids[1..], scores, out);
    }
  }

  /** The teleport baseline carries exactly `1 - damping` in total. */
  lemma TeleportTotal(ids: seq<Id>, seed: Option<Id>, damping: real)
    requires ids != [] && Distinct(ids)
    ensures Sum(ids, Teleport(ids, seed, damping)) == 1.0 - damping
  {
    var t := Teleport(ids, seed, damping);
    if Personalized(ids, seed) {
      SumPoint(ids, t, seed.value);
    } else {
      var n := |ids| as real;
      SumConstant(ids, t, (1.0 - damping) / n);
    }
  }

  lemma TeleportNonNegative(ids: seq<Id>, seed: Option<Id>, damping: real)
    requires ids != [] && damping <= 1.0
    ensures NonNegative(Teleport(ids, seed, damping))
  {
    var n := |ids| as real;
    assert (1.0 - damping) / n >= 0.0;
  }

  /**
   A positive total is divided out, so the normalised table sums to exactly 1
   and keeps non-negative entries; a total that is not positive leaves the
   raw table as it is.
   */
  lemma NormalizeSumsToOne(ids: seq<Id>, ns: map<Id, real>)
    requires KeyedBy(ids, ns)
    ensures Sum(ids, ns) > 0.0 ==> Sum(ids, Normalize(ids, ns)) == 1.0
    ensures Sum(ids, ns) > 0.0 && NonNegative(ns) ==> NonNegative(Normalize(ids, ns))
    ensures Sum(ids, ns) <= 0.0 ==> Normalize(ids, ns) == ns
  {
    var norm := Sum(ids, ns);
    if norm > 0.0 {
      SumScale(ids, ns, Normalize(ids, ns), norm);
    }
  }

  /** Routing non-negative sink mass only adds score. */
  lemma RouteSinkGrows(ns: map<Id, real>, ids: seq<Id>, seed: Option<Id>, damping: real, sink: real)
    requires ids != [] && KeyedBy(ids, ns)
    requires damping >= 0.0 && sink >= 0.0
    ensures forall id :: id in ids ==> RouteSink(ns, ids, seed, damping, sink)[id] >= ns[id]
  {
    assert damping * sink >= 0.0;
    assert damping * sink / |ids| as real >= 0.0;
  }

  /**
   A raw table that dominates a baseline of positive total normalises to a
   probability distribution.
   */
  lemma NormalizeAboveBaseline(ids: seq<Id>, base: map<Id, real>, raw: map<Id, real>)
    requires KeyedBy(ids, base) && KeyedBy(ids, raw)
    requires Sum(ids, base) > 0.0 && NonNegative(base)
    requires forall id :: id in ids ==> base[id] <= raw[id]
    ensures Distribution(ids, Normalize(ids, raw))
  {
    SumMonotone(ids, base, raw);
    assert NonNegative(raw) by {
      forall id | id in raw
        ensures raw[id] >= 0.0
      {
        assert base[id] <= raw[id];
      }
    }
    NormalizeSumsToOne(ids, raw);
  }

  /**
   How a round hands out a mass `amount` (the teleport mass `1 - damping`
   and the routed sink mass `damping * sink`): all of it to a known seed,
   otherwise an equal share to every identity.
   */
  function Share(ids: seq<Id>, seed: Option<Id>, amount: real, t: Id): real
    requires ids != []
  {
    if Personalized(ids, seed) then (if t == seed.value then amount else 0.0)
    else amount / |ids| as real
  }

  /**
   What one round gives identity `t` before normalisation: its inflow from
   active vouches plus its share of the teleport mass and of the sink mass.
   */
  lemma RawRoundScore(ids: seq<Id>, vs: seq<Vouch>, boost: map<Id, real>, out: map<Id, real>,
                      seed: Option<Id>, damping: real, scores: map<Id, real>, sink: real, t: Id)
    requires Graph(ids, vs, boost, out) && KeyedBy(ids, scores) && t in ids
    requires sink == SinkSum(ids, scores, out)
    ensures RouteSink(Propagate(Teleport(ids, seed, damping), vs, scores, boost, out, damping),
                      ids, seed, damping, sink)[t]
            == Share(ids, seed, 1.0 - damping, t)
               + Inflow(vs, t, scores, boost, out, damping)
               + Share(ids, seed, damping * sink, t)
  {
    var base := Teleport(ids, seed, damping);
    assert Routable(vs, out, base);
    PropagateAddsInflow(base, vs, scores, boost, out, damping, t);
    RouteSinkAt(Propagate(base, vs, scores, boost, out, damping), ids, seed, damping, sink, t);
    TeleportAt(ids, seed, damping, t);
  }

  /** The teleport baseline of one identity is its share of `1 - damping`. */
  lemma TeleportAt(ids: seq<Id>, seed: Option<Id>, damping: real, t: Id)
    requires ids != [] && t in ids
    ensures Teleport(ids, seed, damping)[t] == Share(ids, seed, 1.0 - damping, t)
  {
  }

  /** Sink routing adds to each identity its share of `damping * sink`. */
  lemma RouteSinkAt(ns: map<Id, real>, ids: seq<Id>, seed: Option<Id>, damping: real, sink: real, t: Id)
    requires ids != [] && KeyedBy(ids, ns) && t in ids
    ensures RouteSink(ns, ids, seed, damping, sink)[t] == ns[t] + Share(ids, seed, damping * sink, t)
  {
  }

  /** Handing out a mass neither creates nor loses any of it. */
  lemma ShareTotal(ids: seq<Id>, seed: Option<Id>, amount: real)
    requires ids != [] && Distinct(ids)
    ensures Sum(ids, map id | id in ids :: Share(ids, seed, amount, id)) == amount
  {
    var m := map id | id in ids :: Share(ids, seed, amount, id);
    if Personalized(ids, seed) {
      SumPoint(ids, m, seed.value);
    } else {
      SumConstant(ids, m, amount / |ids| as real);
    }
  }

  /**
   The parameters for which every round yields a distribution: a well-formed
   graph over distinct identities, non-negative boosts and vouch values, and
   a damping factor in [0, 1).
   */
  ghost predicate Admissible(ids: seq<Id>, vs: seq<Vouch>, boost: map<Id, real>, out: map<Id, real>, damping: real)
  {
    && Graph(ids, vs, boost, out)
    && Distinct(ids)
    && NonNegative(boost)
    && (forall v :: v in vs ==> v.value >= 0.0)
    && 0.0 <= damping < 1.0
  }

  /**
   With non-negative scores, values and boosts and a damping factor in
   [0, 1), one round yields a probability distribution: the raw total is at
   least the teleport mass `1 - damping`, so normalisation always divides.
   */
  lemma RoundIsDistribution(ids: seq<Id>, vs: seq<Vouch>, boost: map<Id, real>, out: map<Id, real>,
                            seed: Option<Id>, damping: real, scores: map<Id, real>)
    requires Admissible(ids, vs, boost, out, damping)
    requires KeyedBy(ids, scores) && NonNegative(scores)
    ensures Distribution(ids, Round(ids, vs, boost, out, seed, damping, scores))
  {
    var base := Teleport(ids, seed, damping);
    assert Routable(vs, out, base);
    var spread := Propagate(base, vs, scores, boost, out, damping);
    var sink := SinkSum(ids, scores, out);
    PropagateGrows(base, vs, scores, boost, out, damping);
    SinkSumNonNegative(ids, scores, out);
    RouteSinkGrows(spread, ids, seed, damping, sink);
    TeleportTotal(ids, seed, damping);
    TeleportNonNegative(ids, seed, damping);
    NormalizeAboveBaseline(ids, base, RouteSink(spread, ids, seed, damping, sink));
  }

  /** The starting table, 1/n for every identity, is a probability distribution. */
  lemma UniformIsDistribution(ids: seq<Id>)
    requires ids != []
    ensures Distribution(ids, Uniform(ids))
  {
    var n := |ids| as real;
    SumConstant(ids, Uniform(ids), 1.0 / n);
    assert n * (1.0 / n) == 1.0;
  }

  lemma IterateStep(ids: seq<Id>, vs: seq<Vouch>, boost: map<Id, real>, out: map<Id, real>,
                    seed: Option<Id>, damping: real, k: nat)
    requires Graph(ids, vs, boost, out)
    ensures Iterate(ids, vs, boost, out, seed, damping, k + 1)
            == Round(ids, vs, boost, out, seed, damping, Iterate(ids, vs, boost, out, seed, damping, k))
  {
  }

  /** After any number of rounds the scores form a probability distribution. */
  lemma {:induction false} IterateIsDistribution(ids: seq<Id>, vs: seq<Vouch>, boost: map<Id, real>,
                                                 out: map<Id, real>, seed: Option<Id>, damping: real, k: nat)
    requires Admissible(ids, vs, boost, out, damping)
    ensures Distribution(ids, Iterate(ids, vs, boost, out, seed, damping, k))
  {
    var r := Iterate(ids, vs, boost, out, seed, damping, k);
    if k == 0 {
      assert r == Uniform(ids);
      UniformIsDistribution(ids);
    } else {
      var prev := Iterate(ids, vs, boost, out, seed, damping, k - 1);
      IterateIsDistribution(ids, vs, boost, out, seed, damping, k - 1);
      RoundIsDistribution(ids, vs, boost, out, seed, damping, prev);
      assert r == Round(ids, vs, boost, out, seed, damping, prev);
    }
  }

  /**
   What the engine returns for a non-empty identity list, with non-negative
   vouch values and artifact weights and a damping factor in [0, 1), is a
   probability distribution over the identities.
   */
  lemma PageRankIsDistribution(ids: seq<Id>, vs: seq<Vouch>, arts: Option<seq<Artifact>>,
                               seed: Option<Id>, damping: real, rounds: int)
    requires ids != [] && Distinct(ids) && TargetsKnown(ids, vs, rounds)
    requires NonNegativeInput(vs, arts) && 0.0 <= damping < 1.0
    ensures Distribution(ids, PageRank(ids, vs, arts, seed, damping, rounds))
  {
    if rounds > 0 {
      TargetsKnownRoutable(ids, vs, rounds);
      BoostsAtLeastOne(ids, arts);
      assert Admissible(ids, vs, Boosts(ids, arts), OutDegrees(ids, vs), damping);
      IterateIsDistribution(ids, vs, Boosts(ids, arts), OutDegrees(ids, vs), seed, damping, rounds);
    } else {
      UniformIsDistribution(ids);
    }
  }

  lemma TargetsKnownRoutable(ids: seq<Id>, vs: seq<Vouch>, rounds: int)
    requires ids != [] && rounds > 0 && TargetsKnown(ids, vs, rounds)
    ensures Graph(ids, vs, Boosts(ids, None), OutDegrees(ids, vs))
    ensures forall arts :: Graph(ids, vs, Boosts(ids, arts), OutDegrees(ids, vs))
  {
  }

  // ---------------------------------------------------------------------
  // Graphs without vouches

  /** A table that already sums to 1 is left as it is by normalisation. */
  lemma NormalizeUnitTotal(ids: seq<Id>, m: map<Id, real>)
    requires KeyedBy(ids, m) && Sum(ids, m) == 1.0
    ensures Normalize(ids, m) == m
  {
    var r := Normalize(ids, m);
    forall id | id in m
      ensures r[id] == m[id]
    {
    }
  }

  /** The table holding all score at the seed. */
  function AllAtSeed(ids: seq<Id>, s: Id): (m: map<Id, real>)
    requires s in ids
    ensures KeyedBy(ids, m)
  {
    Constant(ids, 0.0)[s := 1.0]
  }

  /** All score at one identity is a probability distribution. */
  lemma AllAtSeedIsDistribution(ids: seq<Id>, s: Id)
    requires Distinct(ids) && s in ids
    ensures Distribution(ids, AllAtSeed(ids, s))
  {
    SumPoint(ids, AllAtSeed(ids, s), s);
  }

  /** With a known seed, teleport plus a whole unit of sink mass puts everything on the seed. */
  lemma SeedGetsWholeUnit(ids: seq<Id>, seed: Option<Id>, damping: real)
    requires ids != [] && Personalized(ids, seed)
    ensures RouteSink(Teleport(ids, seed, damping), ids, seed, damping, 1.0) == AllAtSeed(ids, seed.value)
  {
  }

  /** Without a known seed, teleport plus a whole unit of sink mass is the uniform 1/n. */
  lemma EveryoneGetsEqualShare(ids: seq<Id>, seed: Option<Id>, damping: real)
    requires ids != [] && !Personalized(ids, seed)
    ensures RouteSink(Teleport(ids, seed, damping), ids, seed, damping, 1.0) == Uniform(ids)
  {
    var n := |ids| as real;
    var raw := RouteSink(Teleport(ids, seed, damping), ids, seed, damping, 1.0);
    var share := (1.0 - damping) / n + damping * 1.0 / n;
    assert share == 1.0 / n by {
      calc {
        share;
        (1.0 - damping + damping) / n;
        1.0 / n;
      }
    }
    forall id | id in ids
      ensures raw[id] == 1.0 / n
    {
      assert raw[id] == share;
    }
    SameOnIds(ids, raw, Uniform(ids));
  }

  /** A graph without vouches: every known identity has out-degree 0. */
  ghost predicate Dangling(ids: seq<Id>, boost: map<Id, real>, out: map<Id, real>)
  {
    && Graph(ids, [], boost, out)
    && (forall id :: id in ids ==> out[id] == 0.0)
  }

  /** Without vouches or a known seed, a round maps any table of total 1 to the uniform 1/n. */
  lemma RoundWithoutVouchesIsUniform(ids: seq<Id>, boost: map<Id, real>, out: map<Id, real>,
                                     seed: Option<Id>, damping: real, scores: map<Id, real>)
    requires Dangling(ids, boost, out) && !Personalized(ids, seed)
    requires Distribution(ids, scores)
    ensures Round(ids, [], boost, out, seed, damping, scores) == Uniform(ids)
  {
    var base := Teleport(ids, seed, damping);
    assert Propagate(base, [], scores, boost, out, damping) == base;
    SinkSumAllDangling(ids, scores, out);
    EveryoneGetsEqualShare(ids, seed, damping);
    UniformIsDistribution(ids);
    NormalizeUnitTotal(ids, Uniform(ids));
  }

  /** Without vouches but with a known seed, a round maps any table of total 1 to all score at the seed. */
  lemma RoundWithoutVouchesAtSeed(ids: seq<Id>, boost: map<Id, real>, out: map<Id, real>,
                                  seed: Option<Id>, damping: real, scores: map<Id, real>)
    requires Dangling(ids, boost, out) && Distinct(ids) && Personalized(ids, seed)
    requires Distribution(ids, scores)
    ensures Round(ids, [], boost, out, seed, damping, scores) == AllAtSeed(ids, seed.value)
  {
    var base := Teleport(ids, seed, damping);
    assert Propagate(base, [], scores, boost, out, damping) == base;
    SinkSumAllDangling(ids, scores, out);
    SeedGetsWholeUnit(ids, seed, damping);
    SumPoint(ids, AllAtSeed(ids, seed.value), seed.value);
    NormalizeUnitTotal(ids, AllAtSeed(ids, seed.value));
  }

  /** Without vouches and without a valid seed, the uniform 1/n is kept by every round. */
  lemma {:induction false} NoVouchesStaysUniform(ids: seq<Id>, boost: map<Id, real>, out: map<Id, real>,
                                                 seed: Option<Id>, damping: real, k: nat)
    requires Dangling(ids, boost, out) && !Personalized(ids, seed)
    ensures Iterate(ids, [], boost, out, seed, damping, k) == Uniform(ids)
    ensures Distribution(ids, Iterate(ids, [], boost, out, seed, damping, k))
  {
    if k == 0 {
      IterateStart(ids, [], boost, out, seed, damping, k);
    } else {
      NoVouchesStaysUniform(ids, boost, out, seed, damping, k - 1);
      UniformStep(ids, boost, out, seed, damping, k);
    }
  }

  /** One round without vouches or a known seed, from a distribution. */
  lemma UniformStep(ids: seq<Id>, boost: map<Id, real>, out: map<Id, real>,
                    seed: Option<Id>, damping: real, k: nat)
    requires k >= 1 && Dangling(ids, boost, out) && !Personalized(ids, seed)
    requires Distribution(ids, Iterate(ids, [], boost, out, seed, damping, k - 1))
    ensures Iterate(ids, [], boost, out, seed, damping, k) == Uniform(ids)
    ensures Distribution(ids, Iterate(ids, [], boost, out, seed, damping, k))
  {
    var prev := Iterate(ids, [], boost, out, seed, damping, k - 1);
    RoundWithoutVouchesIsUniform(ids, boost, out, seed, damping, prev);
    UniformIsDistribution(ids);
    assert Iterate(ids, [], boost, out, seed, damping, k) == Round(ids, [], boost, out, seed, damping, prev);
  }

  /**
   Without vouches but with a known seed, one round moves all score to the
   seed, and every later round keeps it there.
   */
  lemma {:induction false} NoVouchesSeedTakesAll(ids: seq<Id>, boost: map<Id, real>, out: map<Id, real>,
                                                 seed: Option<Id>, damping: real, k: nat)
    requires Dangling(ids, boost, out) && Distinct(ids) && Personalized(ids, seed) && k >= 1
    ensures Iterate(ids, [], boost, out, seed, damping, k) == AllAtSeed(ids, seed.value)
    ensures Distribution(ids, Iterate(ids, [], boost, out, seed, damping, k))
  {
    if k == 1 {
      IterateStart(ids, [], boost, out, seed, damping, k - 1);
    } else {
      NoVouchesSeedTakesAll(ids, boost, out, seed, damping, k - 1);
    }
    SeedStep(ids, boost, out, seed, damping, k);
  }

  /** One round without vouches but with a known seed, from a distribution. */
  lemma SeedStep(ids: seq<Id>, boost: map<Id, real>, out: map<Id, real>,
                 seed: Option<Id>, damping: real, k: nat)
    requires k >= 1 && Dangling(ids, boost, out) && Distinct(ids) && Personalized(ids, seed)
    requires Distribution(ids, Iterate(ids, [], boost, out, seed, damping, k - 1))
    ensures Iterate(ids, [], boost, out, seed, damping, k) == AllAtSeed(ids, seed.value)
    ensures Distribution(ids, Iterate(ids, [], boost, out, seed, damping, k))
  {
    var prev := Iterate(ids, [], boost, out, seed, damping, k - 1);
    RoundWithoutVouchesAtSeed(ids, boost, out, seed, damping, prev);
    AllAtSeedIsDistribution(ids, seed.value);
    assert Iterate(ids, [], boost, out, seed, damping, k) == Round(ids, [], boost, out, seed, damping, prev);
  }

  /** The iteration starts from the uniform distribution. */
  lemma IterateStart(ids: seq<Id>, vs: seq<Vouch>, boost: map<Id, real>, out: map<Id, real>,
                     seed: Option<Id>, damping: real, k: nat)
    requires Graph(ids, vs, boost, out) && k == 0
    ensures Iterate(ids, vs, boost, out, seed, damping, k) == Uniform(ids)
    ensures Distribution(ids, Iterate(ids, vs, boost, out, seed, damping, k))
  {
    UniformIsDistribution(ids);
  }

  /**
   The engine on an empty vouch table: without a valid seed every identity
   scores 1/n whatever the number of rounds; with a known seed, after at
   least one round the seed holds 1 and everyone else 0.
   */
  lemma NoVouchesScores(ids: seq<Id>, arts: Option<seq<Artifact>>, seed: Option<Id>, damping: real, rounds: int)
    requires ids != [] && Distinct(ids)
    ensures !Personalized(ids, seed) ==> PageRank(ids, [], arts, seed, damping, rounds) == Uniform(ids)
    ensures Personalized(ids, seed) && rounds >= 1 ==>
              PageRank(ids, [], arts, seed, damping, rounds) == AllAtSeed(ids, seed.value)
  {
    if rounds > 0 {
      var boost, out := Boosts(ids, arts), OutDegrees(ids, []);
      assert Dangling(ids, boost, out);
      if Personalized(ids, seed) {
        NoVouchesSeedTakesAll(ids, boost, out, seed, damping, rounds);
      } else {
        NoVouchesStaysUniform(ids, boost, out, seed, damping, rounds);
      }
    }
  }
}
