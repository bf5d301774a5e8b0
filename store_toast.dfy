/** The `toast` store: `push` takes the next value of the module's id
    counter, appends the entry and schedules its removal; `success` and
    `info` default their timeout to 3000 ms and `error` to 5000 ms; `remove`
    filters an id out. An argument left undefined is None, so the defaults
    apply to it. */
module StoreToast {
  import opened Values
  import opened ClientList
  import opened Toasts

  class ToastStore {
    var toasts: seq<Entry>
    /** The module-level `idSeq`. */
    var nextId: int
    var timers: seq<Timer>

    predicate Valid()
      reads this
    {
      nextId >= 1 && Issued(toasts, nextId) && forall i :: 0 <= i < |timers| ==> timers[i].id < nextId
    }

    constructor ()
      ensures toasts == [] && nextId == 1 && timers == []
      ensures Valid()
    {
      toasts := [];
      nextId := 1;
      timers := [];
    }

    /** `push(message, type = 'info', timeoutMs = 3000)`: the new id is
        greater than every id issued before; the entry goes at the end and
        its removal is scheduled after the timeout. */
    method Push(message: string, kind: Option<string> := None, timeoutMs: Option<int> := None)
      requires Valid()
      modifies this
      ensures Valid()
      ensures nextId == old(nextId) + 1
      ensures forall i :: 0 <= i < |old(toasts)| ==> old(toasts)[i].id < old(nextId)
      ensures toasts == old(toasts) + [Entry(old(nextId), kind.GetOr("info"), message)]
      ensures timers == old(timers) + [Timer(old(nextId), timeoutMs.GetOr(3000))]
    {
      var id := nextId;
      nextId := nextId + 1;
      IssuedAppend(toasts, id, kind.GetOr("info"), message);
      toasts := toasts + [Entry(id, kind.GetOr("info"), message)];
      timers := timers + [Timer(id, timeoutMs.GetOr(3000))];
    }

    method Success(msg: string, t: Option<int>)
      requires Valid()
      modifies this
      ensures Valid() && nextId == old(nextId) + 1
      ensures toasts == old(toasts) + [Entry(old(nextId), "success", msg)]
      ensures timers == old(timers) + [Timer(old(nextId), t.GetOr(3000))]
    {
      Push(msg, Some("success"), Some(t.GetOr(3000)));
    }

    method Error(msg: string, t: Option<int>)
      requires Valid()
      modifies this
      ensures Valid() && nextId == old(nextId) + 1
      ensures toasts == old(toasts) + [Entry(old(nextId), "error", msg)]
      ensures timers == old(timers) + [Timer(old(nextId), t.GetOr(5000))]
    {
      Push(msg, Some("error"), Some(t.GetOr(5000)));
    }

    method Info(msg: string, t: Option<int>)
      requires Valid()
      modifies this
      ensures Valid() && nextId == old(nextId) + 1
      ensures toasts == old(toasts) + [Entry(old(nextId), "info", msg)]
      ensures timers == old(timers) + [Timer(old(nextId), t.GetOr(3000))]
    {
      Push(msg, Some("info"), Some(t.GetOr(3000)));
    }

    /** `remove(id)`: every entry with that id goes and the rest keep their
        order. */
    method Remove(id: int)
      requires Valid()
      modifies this`toasts
      ensures Valid()
      ensures toasts == Without(old(toasts), Key, id)
    {
      IssuedWithout(toasts, nextId, id);
      toasts := Without(toasts, Key, id);
    }
  }
}
