/** What the two toast stores share: the entries they show, the removals
    they schedule, and the invariant their id counters keep. */
module Toasts {
  import opened ClientList

  /** `{ id, type, message }`. */
  datatype Entry = Entry(id: int, kind: string, message: string)

  /** A removal scheduled with `setTimeout` for the toast with that id. */
  datatype Timer = Timer(id: int, ms: int)

  function Key(t: Entry): int {
    t.id
  }

  /** Ids rise along the queue and were all issued before `next`. */
  predicate Issued(toasts: seq<Entry>, next: int) {
    && (forall i, j :: 0 <= i < j < |toasts| ==> toasts[i].id < toasts[j].id)
    && (forall i :: 0 <= i < |toasts| ==> toasts[i].id < next)
  }

  /** Appending a toast under the next id keeps the ids rising, and the
      counter moves past it. */
  lemma {:induction false} IssuedAppend(toasts: seq<Entry>, next: int, kind: string, message: string)
    requires Issued(toasts, next)
    ensures Issued(toasts + [Entry(next, kind, message)], next + 1)
  {
    var r := toasts + [Entry(next, kind, message)];
    assert forall i :: 0 <= i < |toasts| ==> r[i] == toasts[i];
  }

  /** Without its first toast the queue is still issued, and that toast's
      id is below every id left. */
  lemma {:induction false} IssuedTail(toasts: seq<Entry>, next: int)
    requires Issued(toasts, next) && toasts != []
    ensures Issued(toasts[1..], next)
    ensures forall t :: t in toasts[1..] ==> toasts[0].id < t.id
  {
  }

  /** A toast issued below every id of an issued queue can go in front. */
  lemma {:induction false} IssuedCons(x: Entry, toasts: seq<Entry>, next: int)
    requires Issued(toasts, next) && x.id < next
    requires forall t :: t in toasts ==> x.id < t.id
    ensures Issued([x] + toasts, next)
  {
    var r := [x] + toasts;
    assert forall j :: 1 <= j < |r| ==> r[j] == toasts[j - 1] && toasts[j - 1] in toasts;
  }

  /** Filtering keeps the ids rising. */
  lemma {:induction false} IssuedWithout(toasts: seq<Entry>, next: int, id: int)
    requires Issued(toasts, next)
    ensures Issued(Without(toasts, Key, id), next)
    decreases |toasts|
  {
    if toasts != [] {
      IssuedTail(toasts, next);
      IssuedWithout(toasts[1..], next, id);
      if toasts[0].id != id {
        IssuedCons(toasts[0], Without(toasts[1..], Key, id), next);
      }
    }
  }

  /** Removing the toast just added restores the queue. */
  lemma {:induction false} ToastThenRemove(toasts: seq<Entry>, next: int, kind: string, message: string)
    requires Issued(toasts, next)
    ensures Without(toasts + [Entry(next, kind, message)], Key, next) == toasts
  {
    WithoutAppend(toasts, [Entry(next, kind, message)], Key, next);
    WithoutAbsent(toasts, Key, next);
  }
}
