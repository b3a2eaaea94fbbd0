/** The host's one-shot timer queue (`setTimeout` / `clearTimeout`), as a value.
    Real time is not modelled: a timer is a handle with the delay it was armed
    for, and its expiry is an event that the owner of the queue handles. */
module Timers {
  import opened Common

  /** `pending` maps each armed, not yet fired or cancelled handle to the
      delay the host waits before firing it;
      `next` is the handle the next `setTimeout` returns (browsers hand out
      positive, never reused integers). */
  datatype TimerQueue = TimerQueue(pending: map<nat, nat>, next: nat) {
    ghost predicate Valid() {
      next >= 1 && forall h :: h in pending ==> 1 <= h < next
    }
  }

  function Empty(): (q: TimerQueue)
    ensures q.Valid() && q.pending == map[]
  {
    TimerQueue(map[], 1)
  }

  /** The largest delay `setTimeout` honours: 2^31 - 1 ms, about 24.8 days. */
  const MaxDelayMs: nat := 0x7FFF_FFFF

  /** The delay the host actually waits. `setTimeout` converts its delay to a
      signed 32-bit integer (ToInt32: modulo 2^32, the upper half negative)
      and waits 0 ms for a negative result. */
  function HostDelay(delay: nat): (d: nat)
    ensures d <= MaxDelayMs
    ensures delay <= MaxDelayMs ==> d == delay
    ensures MaxDelayMs < delay < 0x1_0000_0000 ==> d == 0
    ensures d == delay % 0x1_0000_0000 || d == 0
  {
    var w := delay % 0x1_0000_0000;
    if w > MaxDelayMs then 0 else w
  }

  /** `setTimeout(cb, delay)`: a fresh handle, pending with the delay the
      host will wait; every other timer is left as it was. */
  function Arm(q: TimerQueue, delay: nat): (r: (TimerQueue, nat))
    requires q.Valid()
    ensures r.0.Valid()
    ensures r.1 >= 1 && r.1 !in q.pending && q.next <= r.1 < r.0.next
    ensures r.0.pending == q.pending[r.1 := HostDelay(delay)]
  {
    (TimerQueue(q.pending[q.next := HostDelay(delay)], q.next + 1), q.next)
  }

  /** `clearTimeout(h)`: cancels `h` if it is pending; a null handle, or one
      that already fired or was cancelled, is ignored. */
  function Cancel(q: TimerQueue, h: Option<nat>): (r: TimerQueue)
    requires q.Valid()
    ensures r.Valid()
    ensures h.None? ==> r == q
    ensures h.Some? ==> r.pending == q.pending - {h.value}
    ensures r.next == q.next
  {
    match h
    case None => q
    case Some(t) => TimerQueue(q.pending - {t}, q.next)
  }

  /** The host fires a pending timer: it leaves the queue. */
  function Fire(q: TimerQueue, h: nat): (r: TimerQueue)
    requires q.Valid() && h in q.pending
    ensures r.Valid()
    ensures r.pending == q.pending - {h} && r.next == q.next
  {
    TimerQueue(q.pending - {h}, q.next)
  }
}
