/**
 pkg/reboot/rebooter.go: reboot by no longer feeding the watchdog, with software reboot as a way out.
 */
module Rebooter {
  import opened Basics
  import opened Watchdog

  const TIME_TO_ASSUME_REBOOT_HAS_STARTED := 30 * SECOND

  /** More than 30s since the last feed; a watchdog that was never fed counts as fed at the zero time. */
  predicate IsWatchdogRebootStuck(lastFood: Option<int>, now: int) {
    lastFood.None? || now - lastFood.value > TIME_TO_ASSUME_REBOOT_HAS_STARTED
  }

  datatype RebootEffect = RebootEffect(wd: Wd, hook: bool, failed: bool)

  /**
   One call on an existing watchdog. The status is read twice, each time under the lock, before the call acts on the
   watchdog `w`: other events may come in between.
   */
  function RebootCall(first: Status, second: Status, w: Wd, now: int): RebootEffect {
    if first == Malfunction then RebootEffect(w, true, false)
    else
      match second
      case Triggered => RebootEffect(w, IsWatchdogRebootStuck(w.lastFood, now), false)
      case Disarmed => RebootEffect(w, true, false)
      case Armed => RebootEffect(Step(w, Stop), false, false)
      case Malfunction => RebootEffect(w, false, true)
  }

  class WatchdogRebooter {
    const wd: SynchronizedWatchdog?
    var softwareReboots: nat

    constructor (wd: SynchronizedWatchdog?)
      ensures this.wd == wd && softwareReboots == 0
    {
      this.wd := wd;
      softwareReboots := 0;
    }

    method Reboot(now: int) returns (failed: bool)
      requires wd != null ==> !wd.crashed
      modifies this, wd
      ensures wd == null ==> !failed && softwareReboots == old(softwareReboots) + 1
      ensures wd != null ==>
                var effect := RebootCall(old(wd.status), old(wd.status), old(wd.State()), now);
                && wd.State() == effect.wd
                && failed == effect.failed
                && softwareReboots == old(softwareReboots) + if effect.hook then 1 else 0
    {
      if wd == null {
        softwareReboots := softwareReboots + 1;
        return false;
      } else if wd.status == Malfunction {
        softwareReboots := softwareReboots + 1;
        return false;
      }
      match wd.status {
        case Triggered =>
          if IsWatchdogRebootStuck(wd.lastFoodTime, now) {
            softwareReboots := softwareReboots + 1;
          }
          return false;
        case Disarmed =>
          softwareReboots := softwareReboots + 1;
          return false;
        case Armed =>
          wd.Stop();
          return false;
        case Malfunction =>
          return true;
      }
    }
  }

  // ---------- escalation ----------

  /** Neither pod shutdown nor Start happens, and nothing is fed after `until`. */
  predicate Quiet(events: seq<Event>, until: int) {
    forall i :: 0 <= i < |events| ==> events[i].Stop? || (events[i].Feed? && events[i].now <= until)
  }

  predicate Usable(w: Wd, now: int) {
    !w.crashed && (w.status == Armed ==> w.stopBound) && (w.lastFood.Some? ==> w.lastFood.value <= now)
  }

  /** Without shutdown and Start, the status only ever goes from Armed to Triggered. */
  lemma {:induction false} QuietKeepsStatus(w: Wd, events: seq<Event>, until: int)
    requires Usable(w, until) && Quiet(events, until)
    ensures Usable(Run(w, events), until)
    ensures Run(w, events).status == w.status || (w.status == Armed && Run(w, events).status == Triggered)
    decreases |events|
  {
    if events == [] {
    } else {
      QuietKeepsStatus(Step(w, events[0]), events[1..], until);
    }
  }

  /** A call during which other events interfere either invokes the software reboot or leaves the watchdog triggered. */
  lemma RebootTakesEffect(w: Wd, between: seq<Event>, before: seq<Event>, now: int)
    requires Usable(w, now) && Quiet(between, now) && Quiet(before, now)
    ensures var second := Run(w, between);
            var effect := RebootCall(w.status, second.status, Run(second, before), now);
            && !effect.failed
            && Usable(effect.wd, now)
            && (effect.hook || effect.wd.status == Triggered)
  {
    QuietKeepsStatus(w, between, now);
    QuietKeepsStatus(Run(w, between), before, now);
  }

  /** The call invokes the software reboot, or leaves the watchdog triggered. */
  predicate Effective(effect: RebootEffect) {
    effect.hook || effect.wd.status == Triggered
  }

  /** The call's own Stop finds the cancel function assigned, and so does every Stop before it. */
  predicate StopsFindCancel(w: Wd, events: seq<Event>) {
    w.stopBound || (InOrder(events) && !StopBeforeBind(events + [Stop]))
  }

  lemma BoundInTime(w: Wd, events: seq<Event>)
    requires w.status == Armed && !w.crashed && NoStart(events) && StopsFindCancel(w, events)
    ensures w.stopBound || !StopBeforeBind(events)
    ensures Run(w, events).status == Armed ==> Run(w, events).stopBound
  {
    if w.stopBound {
      BoundNeverCrashes(w, events);
    } else {
      EndInOrder(events);
      PrefixInOrder(events, [Stop]);
      CrashesExactly(w, events + [Stop]);
      RunAppend(w, events, [Stop]);
      var v := Run(w, events);
      assert Run(v, [Stop]) == Run(Step(v, Stop), []);
      CrashesExactly(w, events);
    }
  }

  lemma EffectiveExactly(first: Status, w: Wd, between: seq<Event>, before: seq<Event>, now: int)
    requires first != Malfunction && w.status == Armed && !w.crashed && NoStart(between) && NoStart(before)
    requires StopsFindCancel(w, between + before)
    ensures var second := Run(w, between);
            Effective(RebootCall(first, second.status, Run(second, before), now)) <==>
            !(FirstChange(between).None? && FirstChange(before).Some? && FirstChange(before).value.Shutdown?)
  {
    RunAppend(w, between, before);
    FirstChangeAppend(between, before);
    BoundInTime(w, between + before);
    if !w.stopBound {
      PrefixInOrder(between, before);
    }
    StatusAfter(w, between);
    StatusAfter(w, between + before);
  }

  lemma EndInOrder(events: seq<Event>)
    requires InOrder(events)
    ensures InOrder(events + [Stop])
  {
    var longer := events + [Stop];
    forall k: nat | k < |longer| && longer[k].Shutdown?
      ensures !BeforeBind(longer, k)
    {
      assert events[k].Shutdown? && !BeforeBind(events, k);
      var i :| 0 <= i <= k && events[i].Bind?;
      assert longer[i].Bind?;
    }
  }

  lemma NilCancelFunction(first: Status, w: Wd, between: seq<Event>, before: seq<Event>, now: int)
    requires first != Malfunction && w.status == Armed && !w.crashed && !w.stopBound
    requires NoStart(between) && NoStart(before)
    requires InOrder(between + before) && StopBeforeBind(between + before + [Stop])
    ensures var second := Run(w, between);
            !Effective(RebootCall(first, second.status, Run(second, before), now))
  {
    var all := between + before;
    EndInOrder(all);
    CrashesExactly(w, all + [Stop]);
    RunAppend(w, between, before);
    assert all + [Stop] == between + (before + [Stop]);
    ArmedBeforeCrash(w, between, before + [Stop]);
    ArmedBeforeCrash(w, all, [Stop]);
  }

  /**
   A call on an armed watchdog, which may have been armed after its status was first read, has no effect if and only if
   its own Stop or one before it finds the cancel function nil, or the first thing to happen is a shutdown that closes
   the device after Armed was read for the second time.
   */
  lemma RebootFailsExactly(first: Status, w: Wd, between: seq<Event>, before: seq<Event>, now: int)
    requires first != Malfunction && w.status == Armed && !w.crashed && NoStart(between) && NoStart(before)
    requires w.stopBound || InOrder(between + before)
    ensures var second := Run(w, between);
            !Effective(RebootCall(first, second.status, Run(second, before), now)) <==>
            || (!w.stopBound && StopBeforeBind(between + before + [Stop]))
            || (FirstChange(between).None? && FirstChange(before).Some? && FirstChange(before).value.Shutdown?)
  {
    if !w.stopBound && StopBeforeBind(between + before + [Stop]) {
      NilCancelFunction(first, w, between, before, now);
    } else {
      EffectiveExactly(first, w, between, before, now);
    }
  }

  /** On a triggered watchdog last fed more than 30s ago, a call invokes the software reboot whatever interferes. */
  lemma StuckRebootEscalates(w: Wd, between: seq<Event>, before: seq<Event>, now: int)
    requires w.status == Triggered
    requires w.lastFood.Some? ==> now - w.lastFood.value > TIME_TO_ASSUME_REBOOT_HAS_STARTED
    ensures RebootCall(w.status, Run(w, between).status, Run(Run(w, between), before), now).hook
  {
    TriggeredForever(w, between);
    TriggeredForever(Run(w, between), before);
  }

  /**
   Two calls more than 30s apart: whatever the watchdog's status before the first, and whatever interferes with the
   calls and happens between them, the software reboot has been invoked, unless the device reset the host before. Only
   the first call must not be disturbed by pod shutdown or Start.
   */
  lemma EscalatesWithinTwoCalls(w: Wd, between1: seq<Event>, before1: seq<Event>, t1: int,
                                gap: seq<Event>, between2: seq<Event>, before2: seq<Event>, t2: int)
    requires Usable(w, t1) && Quiet(between1, t1) && Quiet(before1, t1)
    requires t2 > t1 + TIME_TO_ASSUME_REBOOT_HAS_STARTED
    ensures var second1 := Run(w, between1);
            var call1 := RebootCall(w.status, second1.status, Run(second1, before1), t1);
            var w2 := Run(call1.wd, gap);
            var second2 := Run(w2, between2);
            var call2 := RebootCall(w2.status, second2.status, Run(second2, before2), t2);
            call1.hook || call2.hook
  {
    RebootTakesEffect(w, between1, before1, t1);
    var second1 := Run(w, between1);
    var call1 := RebootCall(w.status, second1.status, Run(second1, before1), t1);
    if !call1.hook {
      TriggeredForever(call1.wd, gap);
      StuckRebootEscalates(Run(call1.wd, gap), between2, before2, t2);
    }
  }

  /** The premise is needed: a pod shutdown between reading Armed and stopping makes the call do nothing at all. */
  lemma ShutdownDefeatsReboot(w: Wd, now: int)
    requires w.status == Armed && !w.crashed
    ensures var interfered := Run(w, [Shutdown(true)]);
            RebootCall(w.status, w.status, interfered, now) == RebootEffect(interfered, false, false)
            && interfered.status == Disarmed && interfered.device == Closed
  {
    assert Run(w, [Shutdown(true)]) == Run(Step(w, Shutdown(true)), []);
  }

  /** So does a Start between the two reads that cannot open the device and turns to software reboot: an error. */
  lemma FailingStartDefeatsReboot(w: Wd, now: int)
    requires w.status == Disarmed && !w.crashed
    ensures var interfered := Run(w, [Arm(OpenFailed(Some(true)), now)]);
            RebootCall(w.status, interfered.status, interfered, now) == RebootEffect(interfered, false, true)
  {
    var start := Arm(OpenFailed(Some(true)), now);
    assert Run(w, [start]) == Run(Step(w, start), []);
  }
}
