/** The idle-logout hook: an idle timer that, on expiry, shows a warning popup
    and arms a logout timer of the same length, which on expiry invokes the
    `onTimeout` callback. User activity re-arms the idle timer.

    Timers are handles in a `Timers.TimerQueue`; the host fires a pending
    handle through `OnTimerFired`, and user activity arrives through
    `OnUserEvent`. The `onTimeout` callback is recorded by counting its
    invocations. */
module IdleLogout {
  import opened Common
  import opened Timers

  const DefaultTimeoutMs: nat := 120000

  /** The window events whose listener resets the timers. */
  const Events: seq<string> := ["mousemove", "keydown", "click", "scroll"]

  class IdleMonitor {
    const timeout: nat
    var showPopup: bool
    var idleTimer: Option<nat>       // idleTimer.current
    var logoutTimer: Option<nat>     // logoutTimer.current
    var timers: TimerQueue
    var listening: set<string>       // events with the reset listener attached
    var timeouts: nat                // invocations of onTimeout so far

    /** Every pending timer is the one a ref holds, the two refs never share a
        handle, and the idle and logout timers are never pending together. */
    ghost predicate Valid()
      reads this
    {
      timers.Valid()
      && (idleTimer.Some? ==> idleTimer.value < timers.next)
      && (logoutTimer.Some? ==> logoutTimer.value < timers.next)
      && (idleTimer.Some? && logoutTimer.Some? ==> idleTimer != logoutTimer)
      && (forall h :: h in timers.pending ==> Some(h) == idleTimer || Some(h) == logoutTimer)
      && !(IdlePending() && LogoutPending())
    }

    ghost predicate IdlePending()
      reads this
    {
      idleTimer.Some? && idleTimer.value in timers.pending
    }

    ghost predicate LogoutPending()
      reads this
    {
      logoutTimer.Some? && logoutTimer.value in timers.pending
    }

    /** The hook's initial state; an undefined `timeout` option defaults to
        two minutes. */
    constructor (timeout: Option<nat>)
      ensures Valid()
      ensures this.timeout == (if timeout.Some? then timeout.value else DefaultTimeoutMs)
      ensures !showPopup && idleTimer.None? && logoutTimer.None?
      ensures timers.pending == map[] && listening == {} && timeouts == 0
    {
      this.timeout := if timeout.Some? then timeout.value else DefaultTimeoutMs;
      showPopup := false;
      idleTimer, logoutTimer := None, None;
      timers := Empty();
      listening := {};
      timeouts := 0;
    }

    /** `resetTimer`: cancels both timers, then arms only the idle timer. */
    method ResetTimer()
      requires Valid()
      modifies this`idleTimer, this`timers
      ensures Valid()
      ensures idleTimer.Some? && timers.pending == map[idleTimer.value := HostDelay(timeout)]
      ensures IdlePending() && !LogoutPending()
      ensures old(idleTimer).Some? ==> old(idleTimer).value !in timers.pending
      ensures old(logoutTimer).Some? ==> old(logoutTimer).value !in timers.pending
    {
      timers := Cancel(timers, idleTimer);
      timers := Cancel(timers, logoutTimer);
      assert timers.pending == map[];
      var q, h := Arm(timers, timeout).0, Arm(timers, timeout).1;
      timers := q;
      idleTimer := Some(h);
    }

    /** The mount effect: attaches the reset listener to every event, then
        resets the timers. */
    method Mount()
      requires Valid()
      modifies this`idleTimer, this`timers, this`listening
      ensures Valid()
      ensures listening == old(listening) + set e | e in Events
      ensures idleTimer.Some? && timers.pending == map[idleTimer.value := HostDelay(timeout)]
    {
      var attached := listening;
      for i := 0 to |Events|
        invariant attached == listening + set k | 0 <= k < i :: Events[k]
      {
        attached := attached + {Events[i]};
      }
      assert (set k | 0 <= k < |Events| :: Events[k]) == set e | e in Events;
      listening := attached;
      ResetTimer();
    }

    /** The host fires a pending timer. The idle timer's callback shows the
        popup and arms the logout timer with the same timeout; the logout
        timer's callback invokes `onTimeout`. */
    method OnTimerFired(h: nat)
      requires Valid() && h in timers.pending
      modifies this`showPopup, this`logoutTimer, this`timers, this`timeouts
      ensures Valid()
      ensures old(IdlePending()) && h == old(idleTimer).value ==>
        showPopup && logoutTimer.Some? && timers.pending == map[logoutTimer.value := HostDelay(timeout)]
        && timeouts == old(timeouts)
      ensures old(LogoutPending()) && h == old(logoutTimer).value ==>
        timers.pending == map[] && timeouts == old(timeouts) + 1
        && showPopup == old(showPopup) && logoutTimer == old(logoutTimer)
    {
      timers := Fire(timers, h);
      if Some(h) == idleTimer {
        assert timers.pending == map[];
        showPopup := true;
        var q, t := Arm(timers, timeout).0, Arm(timers, timeout).1;
        timers := q;
        logoutTimer := Some(t);
      } else {
        assert timers.pending == map[];
        timeouts := timeouts + 1;
      }
    }

    /** A window event: when the listener is attached it resets the timers,
        which cancels a pending forced logout but leaves the popup as it is. */
    method OnUserEvent(e: string)
      requires Valid()
      modifies this`idleTimer, this`timers
      ensures Valid()
      ensures e in listening ==>
        idleTimer.Some? && timers.pending == map[idleTimer.value := HostDelay(timeout)] && !LogoutPending()
      ensures e !in listening ==> idleTimer == old(idleTimer) && timers == old(timers)
    {
      if e in listening {
        ResetTimer();
      }
    }

    /** `stayLoggedIn`: hides the popup and resets the timers. */
    method StayLoggedIn()
      requires Valid()
      modifies this`showPopup, this`idleTimer, this`timers
      ensures Valid()
      ensures !showPopup
      ensures idleTimer.Some? && timers.pending == map[idleTimer.value := HostDelay(timeout)]
    {
      showPopup := false;
      ResetTimer();
    }

    /** The effect's cleanup: detaches every listener and cancels both timers. */
    method Unmount()
      requires Valid()
      modifies this`listening, this`timers
      ensures Valid()
      ensures listening == old(listening) - set e | e in Events
      ensures timers.pending == map[]
    {
      var attached := listening;
      for i := 0 to |Events|
        invariant attached == listening - set k | 0 <= k < i :: Events[k]
      {
        attached := attached - {Events[i]};
      }
      assert (set k | 0 <= k < |Events| :: Events[k]) == set e | e in Events;
      listening := attached;
      timers := Cancel(timers, idleTimer);
      timers := Cancel(timers, logoutTimer);
    }
  }

  /** Idle and logout timers are never pending together: at most one timer of
      the hook is armed at any time. */
  lemma AtMostOneIdleTimer(m: IdleMonitor)
    requires m.Valid()
    ensures |m.timers.pending.Keys| <= 1
  {
    var keys := m.timers.pending.Keys;
    if m.IdlePending() {
      assert keys == {m.idleTimer.value};
    } else if m.LogoutPending() {
      assert keys == {m.logoutTimer.value};
    } else {
      assert keys == {};
    }
  }

  /** A user who stays idle through both periods is logged out exactly once,
      and the popup is showing when it happens. */
  method IdleThroughBothPeriods(timeout: nat) returns (popup: bool, timeoutCalls: nat, armed: nat)
    ensures popup && timeoutCalls == 1 && armed == 0
  {
    var m := new IdleMonitor(Some(timeout));
    m.Mount();
    m.OnTimerFired(m.idleTimer.value);
    m.OnTimerFired(m.logoutTimer.value);
    popup, timeoutCalls, armed := m.showPopup, m.timeouts, |m.timers.pending|;
  }

  /** Activity while the popup is showing cancels the forced logout and
      re-arms the idle timer, but the popup stays up. */
  method ActivityDuringPopup(e: string) returns (popup: bool, logoutArmed: bool, idleArmed: bool)
    requires e in Events
    ensures popup && !logoutArmed && idleArmed
  {
    var m := new IdleMonitor(None);
    m.Mount();
    m.OnTimerFired(m.idleTimer.value);
    var forced := m.logoutTimer.value;
    m.OnUserEvent(e);
    popup := m.showPopup;
    logoutArmed := forced in m.timers.pending;
    idleArmed := m.idleTimer.value in m.timers.pending;
  }
}
