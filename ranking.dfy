/**
 The score lookup of cmd_score and the ordering of cmd_top in
 repute/repute.py, on the score table the engine returns.
 */
module Ranking {
  import opened RankSpec

  type Entry = (Id, real)

  /** `scores.get(target, 0.0)` */
  function ScoreOf(scores: map<Id, real>, id: Id): (r: real)
    ensures id in scores ==> r == scores[id]
    ensures id !in scores ==> r == 0.0
  {
    if id in scores then scores[id] else 0.0
  }

  /** `scores.items()`, in the order of the identity list the table was built from. */
  function Items(ids: seq<Id>, scores: map<Id, real>): (r: seq<Entry>)
    requires Covers(ids, scores)
    ensures |r| == |ids|
    ensures forall i :: 0 <= i < |ids| ==> r[i] == (ids[i], scores[ids[i]])
  {
    if ids == [] then [] else [(ids[0], scores[ids[0]])] + Items(ids[1..], scores)
  }

  ghost predicate Descending(s: seq<Entry>)
  {
    forall i, j :: 0 <= i < j < |s| ==> s[i].1 >= s[j].1
  }

  /** Place `e` before the first entry whose score does not exceed its own. */
  function Insert(e: Entry, s: seq<Entry>): (r: seq<Entry>)
    ensures |r| == |s| + 1
  {
    if s == [] || s[0].1 <= e.1 then [e] + s else [s[0]] + Insert(e, s[1..])
  }

  lemma {:induction false} InsertPermutes(e: Entry, s: seq<Entry>)
    ensures multiset(Insert(e, s)) == multiset(s) + multiset{e}
  {
    if s != [] && s[0].1 > e.1 {
      InsertPermutes(e, s[1..]);
      assert s == [s[0]] + s[1..];
    }
  }

  /** Inserting below a bound keeps every score below it. */
  lemma {:induction false} InsertBounded(e: Entry, s: seq<Entry>, bound: real)
    requires e.1 <= bound
    requires forall k :: 0 <= k < |s| ==> s[k].1 <= bound
    ensures forall k :: 0 <= k < |Insert(e, s)| ==> Insert(e, s)[k].1 <= bound
  {
    if s != [] && s[0].1 > e.1 {
      InsertBounded(e, s[1..], bound);
    }
  }

  lemma {:induction false} InsertKeepsDescending(e: Entry, s: seq<Entry>)
    requires Descending(s)
    ensures Descending(Insert(e, s))
  {
    if s != [] && s[0].1 > e.1 {
      var t := Insert(e, s[1..]);
      InsertKeepsDescending(e, s[1..]);
      InsertBounded(e, s[1..], s[0].1);
      var r := [s[0]] + t;
      assert r == Insert(e, s);
      forall i, j | 0 <= i < j < |r|
        ensures r[i].1 >= r[j].1
      {
        if i > 0 {
          assert r[i] == t[i - 1] && r[j] == t[j - 1];
        } else {
          assert r[j] == t[j - 1];
        }
      }
    }
  }

  /**
   `sorted(items, key=score, reverse=True)`: an insertion sort that puts an
   earlier entry before later ones of equal score.
   */
  function SortByScore(items: seq<Entry>): (r: seq<Entry>)
    ensures |r| == |items|
  {
    if items == [] then [] else Insert(items[0], SortByScore(items[1..]))
  }

  /** The ordering is by descending score and is a permutation of the items. */
  lemma {:induction false} SortByScoreSortsAndPermutes(items: seq<Entry>)
    ensures Descending(SortByScore(items))
    ensures multiset(SortByScore(items)) == multiset(items)
  {
    if items != [] {
      SortByScoreSortsAndPermutes(items[1..]);
      InsertKeepsDescending(items[0], SortByScore(items[1..]));
      InsertPermutes(items[0], SortByScore(items[1..]));
      assert items == [items[0]] + items[1..];
    }
  }

  /** The length of Python's `s[:limit]`; a negative limit counts from the end. */
  function SliceLength(len: nat, limit: int): (k: nat)
    ensures k <= len
    ensures limit >= 0 ==> k == if limit < len then limit else len
    ensures limit < 0 ==> k == if len + limit > 0 then len + limit else 0
  {
    if limit >= 0 then (if limit < len then limit else len)
    else if len + limit > 0 then len + limit else 0
  }

  /**
   `sorted(...)[:limit]`: the first entries of the ordering. Every entry
   kept scores at least as high as every entry cut off.
   */
  function Top(items: seq<Entry>, limit: int): (r: seq<Entry>)
    ensures |r| == SliceLength(|items|, limit)
    ensures r == SortByScore(items)[..|r|]
    ensures forall x :: x in r ==> x in items
    ensures forall i, j :: 0 <= i < |r| <= j < |items| ==> r[i].1 >= SortByScore(items)[j].1
  {
    SortByScoreSortsAndPermutes(items);
    var sorted := SortByScore(items);
    var r := sorted[..SliceLength(|sorted|, limit)];
    assert forall x :: x in r ==> x in multiset(sorted);
    r
  }
}
