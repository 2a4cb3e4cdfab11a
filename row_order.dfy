/**
 The queries of compute_pagerank in repute/repute.py read the vouch and
 artifact tables without an ORDER BY, so the rows may arrive in any order.
 Over the reals the engine does not depend on that order: every per-row
 accumulation (out-degrees, boosts, the inflow of a target) is a total of
 one term per row, and a total is the same for any permutation of its rows.
 */
module RowOrder {
  import opened Wrappers
  import opened RankSpec
  import RankFacts

  /** The sum of `f` over the rows, accumulated from the first to the last. */
  function Total<T>(xs: seq<T>, f: T -> real): real
  {
    if xs == [] then 0.0 else Total(xs[..|xs| - 1], f) + f(xs[|xs| - 1])
  }

  lemma {:induction false} TotalAppend<T>(a: seq<T>, b: seq<T>, f: T -> real)
    ensures Total(a + b, f) == Total(a, f) + Total(b, f)
  {
    if b == [] {
      assert a + b == a;
    } else {
      assert (a + b)[..|a + b| - 1] == a + b[..|b| - 1];
      TotalAppend(a, b[..|b| - 1], f);
    }
  }

  /** A total does not depend on the order of its rows. */
  lemma {:induction false} TotalPermutation<T>(a: seq<T>, b: seq<T>, f: T -> real)
    requires multiset(a) == multiset(b)
    ensures Total(a, f) == Total(b, f)
  {
    if a == [] {
      assert |b| == |multiset(b)| == 0;
    } else {
      var x := a[|a| - 1];
      assert a == a[..|a| - 1] + [x];
      assert x in multiset(b);
      var j :| 0 <= j < |b| && b[j] == x;
      var rest := b[..j] + b[j + 1..];
      Without(a[..|a| - 1], x, b, j);
      TotalPermutation(a[..|a| - 1], rest, f);
      TotalWithout(b, j, f);
    }
  }

  /** Taking row `j` out of `b` takes `x` out of its multiset. */
  lemma Without<T>(init: seq<T>, x: T, b: seq<T>, j: int)
    requires 0 <= j < |b| && b[j] == x && multiset(init + [x]) == multiset(b)
    ensures multiset(init) == multiset(b[..j] + b[j + 1..])
  {
    var rest := b[..j] + b[j + 1..];
    assert b == b[..j] + [x] + b[j + 1..];
    assert multiset(b) == multiset(rest) + multiset{x};
    forall y
      ensures multiset(init)[y] == multiset(rest)[y]
    {
      assert (multiset(init) + multiset{x})[y] == (multiset(rest) + multiset{x})[y];
    }
  }

  /** The total of `b` is that of `b` without row `j`, plus row `j`'s term. */
  lemma TotalWithout<T>(b: seq<T>, j: int, f: T -> real)
    requires 0 <= j < |b|
    ensures Total(b, f) == Total(b[..j] + b[j + 1..], f) + f(b[j])
  {
    var p, x, q := b[..j], b[j], b[j + 1..];
    assert b[..j + 1] == p + [x];
    assert b == b[..j + 1] + q;
    TotalAppend(p + [x], q, f);
    TotalAppend(p, [x], f);
    TotalAppend(p, q, f);
    TotalOne(x, f);
  }

  lemma TotalOne<T>(x: T, f: T -> real)
    ensures Total([x], f) == f(x)
  {
    assert [x][..0] == [];
  }

  // ---------------------------------------------------------------------
  // The engine's accumulations as totals

  /** What one vouch adds to the out-degree of `id`. */
  function SourceValue(id: Id): Vouch -> real
  {
    (v: Vouch) => if v.source == id then v.value else 0.0
  }

  /** What one artifact adds to the boost of `id`. */
  function OwnerWeight(id: Id): Artifact -> real
  {
    (a: Artifact) => if a.owner == id then a.weight else 0.0
  }

  /** What one vouch adds to the score of target `t` in a round. */
  function Gain(t: Id, scores: map<Id, real>, boost: map<Id, real>, out: map<Id, real>,
                damping: real): Vouch -> real
    requires out.Keys <= scores.Keys
  {
    (v: Vouch) => if Active(out, v) && v.target == t && v.source in scores
         then Contribution(v, scores, boost, out, damping) else 0.0
  }

  lemma {:induction false} OutDegreeIsTotal(vs: seq<Vouch>, id: Id)
    ensures OutDegree(vs, id) == Total(vs, SourceValue(id))
  {
    if vs != [] {
      OutDegreeIsTotal(vs[..|vs| - 1], id);
    }
  }

  lemma {:induction false} ArtifactWeightIsTotal(arts: seq<Artifact>, id: Id)
    ensures ArtifactWeight(arts, id) == Total(arts, OwnerWeight(id))
  {
    if arts != [] {
      ArtifactWeightIsTotal(arts[..|arts| - 1], id);
    }
  }

  lemma {:induction false} InflowIsTotal(vs: seq<Vouch>, t: Id, scores: map<Id, real>, boost: map<Id, real>,
                                         out: map<Id, real>, damping: real)
    requires out.Keys <= scores.Keys
    ensures RankFacts.Inflow(vs, t, scores, boost, out, damping) == Total(vs, Gain(t, scores, boost, out, damping))
  {
    if vs != [] {
      InflowIsTotal(vs[..|vs| - 1], t, scores, boost, out, damping);
    }
  }

  // ---------------------------------------------------------------------
  // Order independence

  /** Reordering the vouch rows leaves every out-degree unchanged. */
  lemma OutDegreeIgnoresOrder(vs: seq<Vouch>, ws: seq<Vouch>, id: Id)
    requires multiset(vs) == multiset(ws)
    ensures OutDegree(vs, id) == OutDegree(ws, id)
  {
    OutDegreeIsTotal(vs, id);
    OutDegreeIsTotal(ws, id);
    TotalPermutation(vs, ws, SourceValue(id));
  }

  /** Reordering the artifact rows leaves every boost unchanged. */
  lemma BoostsIgnoreOrder(ids: seq<Id>, arts: seq<Artifact>, arts2: seq<Artifact>)
    requires multiset(arts) == multiset(arts2)
    ensures Boosts(ids, Some(arts)) == Boosts(ids, Some(arts2))
  {
    forall id | id in ids
      ensures ArtifactWeight(arts, id) == ArtifactWeight(arts2, id)
    {
      ArtifactWeightIsTotal(arts, id);
      ArtifactWeightIsTotal(arts2, id);
      TotalPermutation(arts, arts2, OwnerWeight(id));
    }
  }

  /** Edge propagation over reordered vouch rows gives the same table. */
  lemma PropagateIgnoresOrder(ns: map<Id, real>, vs: seq<Vouch>, ws: seq<Vouch>, scores: map<Id, real>,
                              boost: map<Id, real>, out: map<Id, real>, damping: real)
    requires out.Keys <= scores.Keys
    requires Routable(vs, out, ns) && multiset(vs) == multiset(ws)
    ensures Routable(ws, out, ns)
    ensures Propagate(ns, vs, scores, boost, out, damping) == Propagate(ns, ws, scores, boost, out, damping)
  {
    assert forall v :: v in ws ==> v in vs by {
      forall v | v in ws
        ensures v in vs
      {
        assert v in multiset(ws);
      }
    }
    var pv := Propagate(ns, vs, scores, boost, out, damping);
    var pw := Propagate(ns, ws, scores, boost, out, damping);
    forall t | t in ns
      ensures pv[t] == pw[t]
    {
      RankFacts.PropagateAddsInflow(ns, vs, scores, boost, out, damping, t);
      RankFacts.PropagateAddsInflow(ns, ws, scores, boost, out, damping, t);
      InflowIsTotal(vs, t, scores, boost, out, damping);
      InflowIsTotal(ws, t, scores, boost, out, damping);
      TotalPermutation(vs, ws, Gain(t, scores, boost, out, damping));
    }
  }

  /** One round over reordered vouch rows gives the same scores. */
  lemma RoundIgnoresOrder(ids: seq<Id>, vs: seq<Vouch>, ws: seq<Vouch>, boost: map<Id, real>,
                          out: map<Id, real>, seed: Option<Id>, damping: real, scores: map<Id, real>)
    requires Graph(ids, vs, boost, out) && KeyedBy(ids, scores) && multiset(vs) == multiset(ws)
    ensures Graph(ids, ws, boost, out)
    ensures Round(ids, vs, boost, out, seed, damping, scores) == Round(ids, ws, boost, out, seed, damping, scores)
  {
    PropagateIgnoresOrder(Constant(ids, 0.0), vs, ws, scores, boost, out, damping);
    var base := Teleport(ids, seed, damping);
    assert Routable(vs, out, base);
    PropagateIgnoresOrder(base, vs, ws, scores, boost, out, damping);
  }

  lemma GraphIgnoresOrder(ids: seq<Id>, vs: seq<Vouch>, ws: seq<Vouch>, boost: map<Id, real>, out: map<Id, real>)
    requires Graph(ids, vs, boost, out) && multiset(vs) == multiset(ws)
    ensures Graph(ids, ws, boost, out)
  {
    forall v | v in ws
      ensures v in vs
    {
      assert v in multiset(ws);
    }
  }

  lemma {:induction false} IterateIgnoresOrder(ids: seq<Id>, vs: seq<Vouch>, ws: seq<Vouch>, boost: map<Id, real>,
                                               out: map<Id, real>, seed: Option<Id>, damping: real, k: nat)
    requires Graph(ids, vs, boost, out) && multiset(vs) == multiset(ws)
    ensures Graph(ids, ws, boost, out)
    ensures Iterate(ids, vs, boost, out, seed, damping, k) == Iterate(ids, ws, boost, out, seed, damping, k)
  {
    GraphIgnoresOrder(ids, vs, ws, boost, out);
    if k > 0 {
      var j := k - 1;
      IterateIgnoresOrder(ids, vs, ws, boost, out, seed, damping, j);
      OrderStep(ids, vs, ws, boost, out, seed, damping, j, k);
    }
  }

  lemma OrderStep(ids: seq<Id>, vs: seq<Vouch>, ws: seq<Vouch>, boost: map<Id, real>,
                  out: map<Id, real>, seed: Option<Id>, damping: real, j: nat, k: nat)
    requires k == j + 1 && Graph(ids, vs, boost, out) && Graph(ids, ws, boost, out)
    requires multiset(vs) == multiset(ws)
    requires Iterate(ids, vs, boost, out, seed, damping, j) == Iterate(ids, ws, boost, out, seed, damping, j)
    ensures Iterate(ids, vs, boost, out, seed, damping, k) == Iterate(ids, ws, boost, out, seed, damping, k)
  {
    RankFacts.IterateStep(ids, vs, boost, out, seed, damping, j);
    RankFacts.IterateStep(ids, ws, boost, out, seed, damping, j);
    RoundIgnoresOrder(ids, vs, ws, boost, out, seed, damping, Iterate(ids, vs, boost, out, seed, damping, j));
  }

  /**
   The engine's result does not depend on the order in which the vouch rows
   and the artifact rows are read.
   */
  lemma PageRankIgnoresRowOrder(ids: seq<Id>, vs: seq<Vouch>, ws: seq<Vouch>,
                                arts: Option<seq<Artifact>>, arts2: Option<seq<Artifact>>,
                                seed: Option<Id>, damping: real, rounds: int)
    requires multiset(vs) == multiset(ws)
    requires arts.Some? <==> arts2.Some?
    requires arts.Some? ==> multiset(arts.value) == multiset(arts2.value)
    requires TargetsKnown(ids, vs, rounds)
    ensures TargetsKnown(ids, ws, rounds)
    ensures PageRank(ids, vs, arts, seed, damping, rounds) == PageRank(ids, ws, arts2, seed, damping, rounds)
  {
    forall v | v in ws
      ensures v in vs && OutDegree(vs, v.source) == OutDegree(ws, v.source)
    {
      assert v in multiset(ws);
      OutDegreeIgnoresOrder(vs, ws, v.source);
    }
    if ids != [] && rounds > 0 {
      var boost := Boosts(ids, arts);
      if arts.Some? {
        BoostsIgnoreOrder(ids, arts.value, arts2.value);
      }
      assert boost == Boosts(ids, arts2);
      forall id | id in ids
        ensures OutDegree(vs, id) == OutDegree(ws, id)
      {
        OutDegreeIgnoresOrder(vs, ws, id);
      }
      var out := OutDegrees(ids, vs);
      assert out == OutDegrees(ids, ws);
      RankFacts.TargetsKnownRoutable(ids, vs, rounds);
      IterateIgnoresOrder(ids, vs, ws, boost, out, seed, damping, rounds);
    }
  }
}
