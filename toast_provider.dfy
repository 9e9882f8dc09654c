/**
 * The toast queue: `push` appends a toast and, for a positive duration, schedules
 * its expiry; `remove` and an expiry that fires drop every toast with the given id.
 * Timers are explicit: `timers` holds the expiries scheduled and not yet fired, and
 * `Expire` is the event of one of them firing.
 */
module ToastProvider {

  import opened Wrappers
  import opened Js
  import Seqs

  /** One toast as it is stored: `{ id, message, type }`. */
  datatype Toast = Toast(id: string, message: string, kind: string)

  /** A scheduled `setTimeout` that will drop the toast `id` after `duration` milliseconds. */
  datatype Timer = Timer(id: string, duration: int)

  const DefaultKind: string := "success"
  const DefaultDuration: int := 3000

  function IdIsNot(id: string): Toast -> bool {
    (t: Toast) => t.id != id
  }

  function IdIs(id: string): Toast -> bool {
    (t: Toast) => t.id == id
  }

  /** `t.filter((x) => x.id !== id)`. */
  function Without(ts: seq<Toast>, id: string): (r: seq<Toast>)
    ensures forall t :: t in r <==> t in ts && t.id != id
  {
    Seqs.Filter(ts, IdIsNot(id))
  }

  /** Removing keeps the other toasts in their original order: it distributes over concatenation. */
  lemma WithoutAppend(a: seq<Toast>, b: seq<Toast>, id: string)
    ensures Without(a + b, id) == Without(a, id) + Without(b, id)
  {
    Seqs.FilterAppend(a, b, IdIsNot(id));
  }

  /** Removing an id that no toast carries leaves the list as it was. */
  lemma WithoutAbsent(ts: seq<Toast>, id: string)
    requires forall t :: t in ts ==> t.id != id
    ensures Without(ts, id) == ts
  {
    Seqs.FilterAll(ts, IdIsNot(id));
  }

  /** The list shrinks by exactly the number of toasts that carry the id. */
  lemma WithoutLength(ts: seq<Toast>, id: string)
    ensures |Without(ts, id)| == |ts| - Seqs.Count(ts, IdIs(id))
  {
    Seqs.FilterLength(ts, IdIsNot(id), IdIs(id));
  }

  /** Removing the same id twice is removing it once: an expiry that fires after a dismissal changes nothing. */
  lemma WithoutTwice(ts: seq<Toast>, id: string)
    ensures Without(Without(ts, id), id) == Without(ts, id)
  {
    Seqs.FilterTwice(ts, IdIsNot(id));
  }

  /** Removals of two ids give the same list in either order: expiries may fire in any order. */
  lemma WithoutCommute(ts: seq<Toast>, a: string, b: string)
    ensures Without(Without(ts, a), b) == Without(Without(ts, b), a)
  {
    Seqs.FilterCommute(ts, IdIsNot(a), IdIsNot(b));
  }

  /** Removing the id of a toast just pushed with a fresh id restores the list from before the push. */
  lemma PushThenRemove(ts: seq<Toast>, t: Toast)
    requires forall u :: u in ts ==> u.id != t.id
    ensures Without(ts + [t], t.id) == ts
  {
    WithoutAppend(ts, [t], t.id);
    WithoutAbsent(ts, t.id);
    Seqs.FilterSingle(t, IdIsNot(t.id));
  }

  /** The state of one `ToastProvider`. */
  class Provider {
    var toasts: seq<Toast>
    var timers: seq<Timer>

    constructor ()
      ensures toasts == [] && timers == []
    {
      toasts := [];
      timers := [];
    }

    /**
     * `push({ message, type, duration })`. A missing `type` is "success", a missing
     * `duration` is 3000; `freshId` stands for the id built from the clock and a random number.
     */
    method Push(message: string, kind: Option<string>, duration: Option<int>, freshId: string) returns (id: string)
      modifies this
      ensures id == freshId
      ensures toasts == old(toasts) + [Toast(id, message, kind.GetOr(DefaultKind))]
      ensures duration.GetOr(DefaultDuration) > 0 ==>
        timers == old(timers) + [Timer(id, duration.GetOr(DefaultDuration))]
      ensures duration.GetOr(DefaultDuration) <= 0 ==> timers == old(timers)
    {
      id := freshId;
      var kindOrDefault := kind.GetOr(DefaultKind);
      var durationOrDefault := duration.GetOr(DefaultDuration);
      toasts := toasts + [Toast(id, message, kindOrDefault)];
      if durationOrDefault > 0 {
        timers := timers + [Timer(id, durationOrDefault)];
      }
    }

    /** `remove(id)`: the dismiss button; pending timers are not cancelled. */
    method Remove(id: string)
      modifies this
      ensures toasts == Without(old(toasts), id)
      ensures timers == old(timers)
    {
      toasts := Without(toasts, id);
    }

    /** The `k`-th pending timer fires: it drops its own toast's id and nothing else. */
    method Expire(k: nat)
      requires k < |timers|
      modifies this
      ensures timers == old(timers[..k] + timers[k + 1..])
      ensures toasts == Without(old(toasts), old(timers[k].id))
    {
      var id := timers[k].id;
      timers := timers[..k] + timers[k + 1..];
      toasts := Without(toasts, id);
    }
  }

  /** `useToast()`: the provider's `{ push, remove }`, or an exception outside any provider. */
  function UseToast(context: Option<Provider>): (r: Completion<Provider>)
    ensures r.Normal? <==> context.Some?
    ensures r.Normal? ==> r.value == context.value
    ensures r.Threw? ==> r.error.message == "useToast must be used within ToastProvider"
  {
    match context
    case Some(p) => Normal(p)
    case None => Threw(Error("useToast must be used within ToastProvider"))
  }

  /** A toast pushed with the default duration and a fresh id is gone once its own timer fires; the rest of the state is as before the push. */
  method PushThenExpire(p: Provider, message: string, freshId: string)
    requires forall t :: t in p.toasts ==> t.id != freshId
    modifies p
    ensures p.toasts == old(p.toasts) && p.timers == old(p.timers)
  {
    var id := p.Push(message, None, None, freshId);
    var last := |p.timers| - 1;
    assert p.timers[last] == Timer(freshId, DefaultDuration);
    p.Expire(last);
    PushThenRemove(old(p.toasts), Toast(freshId, message, DefaultKind));
  }
}
