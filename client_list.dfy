/** The array operations the client stores apply to their cached lists:
    `findIndex` on an id, replacing the entry found, filtering out every
    entry with an id, and counting the entries that pass a test. */
module ClientList {
  import opened Values

  /** `findIndex(x => key(x) === id)`: the first matching position, or -1. */
  function FindIndex<T, K(==)>(s: seq<T>, key: T -> K, id: K): (i: int)
    ensures -1 <= i < |s|
    ensures i == -1 <==> forall j :: 0 <= j < |s| ==> key(s[j]) != id
    ensures i >= 0 ==> key(s[i]) == id && forall j :: 0 <= j < i ==> key(s[j]) != id
    decreases |s|
  {
    if s == [] then -1
    else if key(s[0]) == id then 0
    else
      var i := FindIndex(s[1..], key, id);
      assert forall j :: 1 <= j < |s| ==> s[j] == s[1..][j - 1];
      if i == -1 then -1 else i + 1
  }

  /** `if (idx !== -1) list[idx] = f(list[idx])` after that `findIndex`. */
  function UpdateFirst<T, K(==)>(s: seq<T>, key: T -> K, id: K, f: T -> T): (r: seq<T>)
    ensures |r| == |s|
    ensures var i := FindIndex(s, key, id);
            && (i == -1 ==> r == s)
            && (i >= 0 ==> r == s[i := f(s[i])])
  {
    var i := FindIndex(s, key, id);
    if i == -1 then s else s[i := f(s[i])]
  }

  /** `filter(x => key(x) !== id)`. */
  function Without<T(!new), K(==)>(s: seq<T>, key: T -> K, id: K): (r: seq<T>)
    ensures |r| <= |s|
    ensures forall x :: x in r <==> x in s && key(x) != id
    decreases |s|
  {
    if s == [] then []
    else
      var rest := Without(s[1..], key, id);
      assert forall x :: x in s <==> x == s[0] || x in s[1..];
      if key(s[0]) == id then rest else [s[0]] + rest
  }

  /** Filtering distributes over concatenation, so the entries kept stay in
      their original order. */
  lemma {:induction false} WithoutAppend<T(!new), K>(a: seq<T>, b: seq<T>, key: T -> K, id: K)
    ensures Without(a + b, key, id) == Without(a, key, id) + Without(b, key, id)
    decreases |a|
  {
    if a == [] {
      assert a + b == b;
    } else {
      assert (a + b)[1..] == a[1..] + b;
      WithoutAppend(a[1..], b, key, id);
      if key(a[0]) != id {
        calc {
          Without(a + b, key, id);
          [a[0]] + Without(a[1..] + b, key, id);
          [a[0]] + (Without(a[1..], key, id) + Without(b, key, id));
          ([a[0]] + Without(a[1..], key, id)) + Without(b, key, id);
        }
      }
    }
  }

  /** With no entry to remove, the list is unchanged. */
  lemma {:induction false} WithoutAbsent<T(!new), K>(s: seq<T>, key: T -> K, id: K)
    requires forall j :: 0 <= j < |s| ==> key(s[j]) != id
    ensures Without(s, key, id) == s
    decreases |s|
  {
    if s != [] {
      WithoutAbsent(s[1..], key, id);
    }
  }

  /** Removing twice is removing once. */
  lemma {:induction false} WithoutIdempotent<T(!new), K>(s: seq<T>, key: T -> K, id: K)
    ensures Without(Without(s, key, id), key, id) == Without(s, key, id)
  {
    var r := Without(s, key, id);
    assert forall j :: 0 <= j < |r| ==> r[j] in r;
    WithoutAbsent(r, key, id);
  }

  /** Removing an id held by exactly one entry drops just that entry. */
  lemma {:induction false} WithoutSingle<T(!new), K>(s: seq<T>, key: T -> K, id: K, i: int)
    requires 0 <= i < |s| && key(s[i]) == id
    requires forall j :: 0 <= j < |s| && j != i ==> key(s[j]) != id
    ensures Without(s, key, id) == s[..i] + s[i + 1..]
  {
    var a, b := s[..i], s[i + 1..];
    assert forall j :: 0 <= j < |a| ==> a[j] == s[j];
    assert forall j :: 0 <= j < |b| ==> b[j] == s[i + 1 + j];
    assert s == a + [s[i]] + b;
    WithoutAroundOne(a, s[i], b, key, id);
  }

  /** Removing the id of an entry that sits between two stretches without
      that id leaves the two stretches joined. */
  lemma {:induction false} WithoutAroundOne<T(!new), K>(a: seq<T>, x: T, b: seq<T>, key: T -> K, id: K)
    requires key(x) == id
    requires forall j :: 0 <= j < |a| ==> key(a[j]) != id
    requires forall j :: 0 <= j < |b| ==> key(b[j]) != id
    ensures Without(a + [x] + b, key, id) == a + b
  {
    WithoutAbsent(a, key, id);
    WithoutAbsent(b, key, id);
    var c := [x] + b;
    assert c[1..] == b;
    assert a + [x] + b == a + c;
    WithoutAppend(a, c, key, id);
  }

  // ---------------------------------------------------------------------
  // Lists that may hold `null`: reading a key may throw

  /** A list of values as a list of non-null entries. */
  function Lift<T>(s: seq<T>): (r: seq<Option<T>>)
    ensures |r| == |s| && forall j :: 0 <= j < |s| ==> r[j] == Some(s[j])
  {
    seq(|s|, j requires 0 <= j < |s| => Some(s[j]))
  }

  /** `findIndex(x => key(x) === id)` when reading a key may throw (`key`
      gives `None`): the scan throws at the first such entry unless a match
      comes before it; otherwise it is `findIndex`. */
  function FindIndexOrThrow<T, K(==)>(s: seq<T>, key: T -> Option<K>, id: K): (r: Option<int>)
    ensures r.None? <==>
              exists j :: 0 <= j < |s| && key(s[j]).None? && forall k :: 0 <= k < j ==> key(s[k]) != Some(id)
    ensures r.Some? ==> r.value == FindIndex(s, key, Some(id))
    decreases |s|
  {
    if s == [] then Some(-1)
    else if key(s[0]) == Some(id) then Some(0)
    else if key(s[0]).None? then None
    else
      var r := FindIndexOrThrow(s[1..], key, id);
      assert forall j :: 1 <= j < |s| ==> s[j] == s[1..][j - 1];
      if r.None? then
        var j :| 0 <= j < |s[1..]| && key(s[1..][j]).None? && forall k :: 0 <= k < j ==> key(s[1..][k]) != Some(id);
        assert key(s[j + 1]).None? && forall k :: 0 <= k < j + 1 ==> key(s[k]) != Some(id);
        None
      else if r.value == -1 then Some(-1)
      else Some(r.value + 1)
  }

  /** `filter(x => key(x) !== id)` when reading a key may throw: it throws
      when any entry's key does, and otherwise keeps what `filter` keeps. */
  function WithoutOrThrow<T(!new), K(==)>(s: seq<T>, key: T -> Option<K>, id: K): (r: Option<seq<T>>)
    ensures r.None? <==> exists j :: 0 <= j < |s| && key(s[j]).None?
    ensures r.Some? ==> r.value == Without(s, key, Some(id))
  {
    if exists j :: 0 <= j < |s| && key(s[j]).None? then None else Some(Without(s, key, Some(id)))
  }

  /** `filter(p).length`. */
  function Count<T>(s: seq<T>, p: T -> bool): (n: nat)
    ensures n <= |s|
    ensures n == 0 <==> forall j :: 0 <= j < |s| ==> !p(s[j])
    ensures n == |s| <==> forall j :: 0 <= j < |s| ==> p(s[j])
    decreases |s|
  {
    if s == [] then 0
    else
      assert forall j :: 1 <= j < |s| ==> s[j] == s[1..][j - 1];
      (if p(s[0]) then 1 else 0) + Count(s[1..], p)
  }

  /** Entries that no element satisfies both ways are counted once at most,
      so the two counts together never exceed the length. */
  lemma {:induction false} CountDisjoint<T>(s: seq<T>, p: T -> bool, q: T -> bool)
    requires forall j :: 0 <= j < |s| ==> !(p(s[j]) && q(s[j]))
    ensures Count(s, p) + Count(s, q) <= |s|
    decreases |s|
  {
    if s != [] {
      assert forall j :: 1 <= j < |s| ==> s[j] == s[1..][j - 1];
      CountDisjoint(s[1..], p, q);
    }
  }

  /** A condition implied by another is counted at least as often. */
  lemma {:induction false} CountMonotone<T>(s: seq<T>, p: T -> bool, q: T -> bool)
    requires forall j :: 0 <= j < |s| ==> p(s[j]) ==> q(s[j])
    ensures Count(s, p) <= Count(s, q)
    decreases |s|
  {
    if s != [] {
      assert forall j :: 1 <= j < |s| ==> s[j] == s[1..][j - 1];
      CountMonotone(s[1..], p, q);
    }
  }
}
