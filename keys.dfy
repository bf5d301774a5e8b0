/** Ordered scans over the ids of a table. Every table keeps its ids in
    1..counter (see Db.Database.Valid), so scanning that range upwards gives
    `ORDER BY id ASC` and downwards gives `ORDER BY id DESC`. */
module Keys {

  predicate Increasing(s: seq<int>) {
    forall i, j :: 0 <= i < j < |s| ==> s[i] < s[j]
  }

  predicate Decreasing(s: seq<int>) {
    forall i, j :: 0 <= i < j < |s| ==> s[i] > s[j]
  }

  /** The ids of `keys` within 1..hi, smallest first. */
  function Asc(keys: set<int>, hi: int): (r: seq<int>)
    ensures Increasing(r)
    ensures forall k :: k in r <==> k in keys && 1 <= k <= hi
    decreases hi
  {
    if hi <= 0 then []
    else
      var rest := Asc(keys, hi - 1);
      assert forall i :: 0 <= i < |rest| ==> rest[i] in rest;
      rest + (if hi in keys then [hi] else [])
  }

  /** The ids of `keys` within 1..hi, largest first. */
  function Desc(keys: set<int>, hi: int): (r: seq<int>)
    ensures Decreasing(r)
    ensures forall k :: k in r <==> k in keys && 1 <= k <= hi
    decreases hi
  {
    if hi <= 0 then []
    else
      var rest := Desc(keys, hi - 1);
      assert forall i :: 0 <= i < |rest| ==> rest[i] in rest;
      (if hi in keys then [hi] else []) + rest
  }

  /** The ids of `ids` that satisfy `keep`, in their original order (the
      WHERE clause applied to a scan). */
  function Filter(ids: seq<int>, keep: int -> bool): (r: seq<int>)
    ensures forall k :: k in r <==> k in ids && keep(k)
    decreases |ids|
  {
    if ids == [] then []
    else
      var rest := Filter(ids[1..], keep);
      assert forall k :: k in ids <==> k == ids[0] || k in ids[1..];
      if keep(ids[0]) then [ids[0]] + rest else rest
  }

  /** Dropping the first id of a sorted scan keeps it sorted, and the
      dropped id lies beyond every id left. */
  lemma {:induction false} IncreasingTail(ids: seq<int>)
    requires Increasing(ids) && ids != []
    ensures Increasing(ids[1..])
    ensures forall k :: k in ids[1..] ==> ids[0] < k
  {
  }

  lemma {:induction false} DecreasingTail(ids: seq<int>)
    requires Decreasing(ids) && ids != []
    ensures Decreasing(ids[1..])
    ensures forall k :: k in ids[1..] ==> ids[0] > k
  {
  }

  /** An id below every id of a sorted scan can go in front of it. */
  lemma {:induction false} IncreasingCons(a: int, s: seq<int>)
    requires Increasing(s)
    requires forall k :: k in s ==> a < k
    ensures Increasing([a] + s)
  {
    var r := [a] + s;
    assert forall j :: 1 <= j < |r| ==> r[j] == s[j - 1] && s[j - 1] in s;
  }

  lemma {:induction false} DecreasingCons(a: int, s: seq<int>)
    requires Decreasing(s)
    requires forall k :: k in s ==> a > k
    ensures Decreasing([a] + s)
  {
    var r := [a] + s;
    assert forall j :: 1 <= j < |r| ==> r[j] == s[j - 1] && s[j - 1] in s;
  }

  /** Filtering an ascending scan leaves it ascending. */
  lemma {:induction false} FilterIncreasing(ids: seq<int>, keep: int -> bool)
    requires Increasing(ids)
    ensures Increasing(Filter(ids, keep))
    decreases |ids|
  {
    if ids != [] {
      IncreasingTail(ids);
      FilterIncreasing(ids[1..], keep);
      if keep(ids[0]) {
        IncreasingCons(ids[0], Filter(ids[1..], keep));
      }
    }
  }

  /** Filtering a descending scan leaves it descending. */
  lemma {:induction false} FilterDecreasing(ids: seq<int>, keep: int -> bool)
    requires Decreasing(ids)
    ensures Decreasing(Filter(ids, keep))
    decreases |ids|
  {
    if ids != [] {
      DecreasingTail(ids);
      FilterDecreasing(ids[1..], keep);
      if keep(ids[0]) {
        DecreasingCons(ids[0], Filter(ids[1..], keep));
      }
    }
  }
}
