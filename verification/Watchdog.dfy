/**
 The mutex-guarded watchdog of pkg/watchdog/synchronized.go over an abstract device. Every critical section is one
 atomic event; the feed loop, pod shutdown, Stop and repeated Start interleave freely.
 */
module Watchdog {
  import opened Basics

  datatype Status = Disarmed | Armed | Triggered | Malfunction

  /** The device: closed, or counting down since it was last fed. */
  datatype Device = Closed | Running(fed: int)

  /**
   `stopBound` tells whether the cancel function was assigned; `crashed` that calling it while nil ended the process.
   */
  datatype Wd = Wd(
    status: Status, timeout: int, lastFood: Option<int>, stopBound: bool, device: Device, crashed: bool)
  {
    /** The device resets the host at this time unless it is fed before. */
    function Deadline(): int
      requires device.Running?
    {
      device.fed + timeout
    }

    predicate Expired(now: int) {
      device.Running? && now >= Deadline()
    }
  }

  const NEW_WD := Wd(Disarmed, 0, None, false, Closed, false)

  /**
   Opening the device gives its timeout, or fails; then it matters whether software reboot is enabled, if that is
   known.
   */
  datatype Opening = Opened(timeout: int) | OpenFailed(softwareReboot: Option<bool>)

  datatype Event =
    | Arm(opening: Opening, now: int) // the locked part of Start up to the unlock
    | Bind                            // Start assigns the cancel function and spawns the feed loop
    | Feed(ok: bool, now: int)        // one turn of the feed loop
    | Shutdown(ok: bool)              // the end of Start, after its context is done
    | Stop

  function Step(w: Wd, e: Event): Wd {
    if w.crashed then w else
    match e
    case Arm(opening, now) =>
      if w.status != Disarmed then w
      else (
        match opening
        case Opened(timeout) => w.(timeout := timeout, status := Armed, device := Running(now))
        case OpenFailed(Some(true)) => w.(status := Malfunction)
        case OpenFailed(_) => w
      )
    case Bind => w.(stopBound := true)
    case Feed(ok, now) =>
      if w.status == Armed && ok then w.(lastFood := Some(now), device := Running(now)) else w
    case Shutdown(ok) =>
      if w.status == Armed && ok then w.(status := Disarmed, device := Closed) else w
    case Stop =>
      if w.status != Armed then w
      else if !w.stopBound then w.(crashed := true)
      else w.(status := Triggered)
  }

  function Run(w: Wd, events: seq<Event>): Wd
    decreases |events|
  {
    if events == [] then w else Run(Step(w, events[0]), events[1..])
  }

  class SynchronizedWatchdog {
    var status: Status
    var timeout: int
    var lastFoodTime: Option<int>
    var stopBound: bool
    var device: Device
    var crashed: bool

    constructor ()
      ensures State() == NEW_WD
    {
      status, timeout, lastFoodTime, stopBound, device, crashed := Disarmed, 0, None, false, Closed, false;
    }

    function State(): Wd
      reads this
    {
      Wd(status, timeout, lastFoodTime, stopBound, device, crashed)
    }

    /**
     The first locked section of Start. It reports an error if the watchdog was started before, or if the device
     cannot be opened and it is not known whether software reboot is enabled; with software reboot disabled it reports
     none, since wrapping a nil error gives nil.
     */
    method StartArm(opening: Opening, now: int) returns (failed: bool)
      requires !crashed
      modifies this
      ensures State() == Step(old(State()), Arm(opening, now))
      ensures failed <==> old(status) != Disarmed || opening == OpenFailed(None)
      ensures old(status) != Disarmed ==> State() == old(State())
      ensures old(status) == Disarmed ==>
                && (status == Armed <==> opening.Opened?)
                && (status == Malfunction <==> opening == OpenFailed(Some(true)))
                && (opening.Opened? ==> timeout == opening.timeout && device == Running(now))
                && (opening.OpenFailed? ==> device == old(device) && timeout == old(timeout))
    {
      if status != Disarmed {
        return true;
      }
      match opening {
        case OpenFailed(softwareReboot) =>
          if softwareReboot.None? || !softwareReboot.value {
            return softwareReboot.None?;
          }
          status := Malfunction;
          return false;
        case Opened(t) =>
          device := Running(now);
          timeout := t;
          status := Armed;
          return false;
      }
    }

    method StartBind()
      requires !crashed
      modifies this
      ensures State() == Step(old(State()), Bind)
    {
      stopBound := true;
    }

    method FeedOnce(ok: bool, now: int)
      requires !crashed
      modifies this
      ensures State() == Step(old(State()), Feed(ok, now))
    {
      if status != Armed {
        return;
      }
      if ok {
        device := Running(now);
        lastFoodTime := Some(now);
      }
    }

    method EndStart(ok: bool)
      requires !crashed
      modifies this
      ensures State() == Step(old(State()), Shutdown(ok))
    {
      if status == Armed {
        if ok {
          device := Closed;
          status := Disarmed;
        }
      }
    }

    method Stop()
      requires !crashed
      modifies this
      ensures State() == Step(old(State()), Event.Stop)
    {
      if status == Armed {
        if !stopBound {
          crashed := true;
          return;
        }
        status := Triggered;
      }
    }
  }

  // ---------- every interleaving ----------

  /**
   Triggered is never left, and neither a feed nor a disarm reaches the device any more: whatever interleaving follows,
   the device expires at its last feed before the trigger plus the timeout.
   */
  lemma {:induction false} TriggeredForever(w: Wd, events: seq<Event>)
    requires w.status == Triggered
    ensures Run(w, events).(stopBound := w.stopBound) == w
    decreases |events|
  {
    if events == [] {
    } else {
      TriggeredForever(Step(w, events[0]), events[1..]);
    }
  }

  /** What holds of every state that a fresh watchdog can reach. */
  predicate Reachable(w: Wd) {
    && (w.status in {Armed, Triggered} <==> w.device.Running?)
    && (w.lastFood.Some? && w.device.Running? ==> w.lastFood.value <= w.device.fed)
    && (w.status == Triggered ==> w.stopBound)
    && (w.crashed ==> w.status == Armed && !w.stopBound)
  }

  /** The times of the events, in order, starting at `now`. */
  predicate Ordered(events: seq<Event>, now: int) {
    events == [] ||
    match events[0]
    case Arm(_, t) => now <= t && Ordered(events[1..], t)
    case Feed(_, t) => now <= t && Ordered(events[1..], t)
    case _ => Ordered(events[1..], now)
  }

  predicate FedBefore(w: Wd, now: int) {
    (w.device.Running? ==> w.device.fed <= now) && (w.lastFood.Some? ==> w.lastFood.value <= now)
  }

  /**
   In every interleaving from a fresh watchdog the device counts exactly while the status is Armed or Triggered, the
   recorded feed time is never later than the device's own, and the process can only end while Armed with a
   running device, which then expires at the unchanged deadline.
   */
  lemma {:induction false} ReachableForever(w: Wd, events: seq<Event>, now: int)
    requires Reachable(w) && FedBefore(w, now) && Ordered(events, now)
    ensures Reachable(Run(w, events))
    decreases |events|
  {
    if events == [] {
    } else {
      var t := match events[0] case Arm(_, t) => t case Feed(_, t) => t case _ => now;
      ReachableForever(Step(w, events[0]), events[1..], t);
    }
  }

  /** Once the cancel function is assigned, it stays so, and no Stop finds it nil. */
  lemma {:induction false} BoundNeverCrashes(w: Wd, events: seq<Event>)
    requires !w.crashed && w.stopBound
    ensures !Run(w, events).crashed && Run(w, events).stopBound
    decreases |events|
  {
    if events == [] {
    } else {
      BoundNeverCrashes(Step(w, events[0]), events[1..]);
    }
  }

  lemma {:induction false} CrashedForever(w: Wd, events: seq<Event>)
    requires w.crashed
    ensures Run(w, events).crashed
    decreases |events|
  {
    if events == [] {
    } else {
      CrashedForever(w, events[1..]);
    }
  }

  /** The event at `k` comes before the cancel function is assigned. */
  predicate BeforeBind(events: seq<Event>, k: nat)
    requires k < |events|
  {
    forall i :: 0 <= i <= k ==> !events[i].Bind?
  }

  predicate StopBeforeBind(events: seq<Event>) {
    exists k: nat :: k < |events| && events[k].Stop? && BeforeBind(events, k)
  }

  /** Start's own order: it does not get to the shutdown before it has assigned the cancel function. */
  predicate InOrder(events: seq<Event>) {
    forall k: nat :: k < |events| && events[k].Shutdown? ==> !BeforeBind(events, k)
  }

  lemma BeforeBindShifts(events: seq<Event>, k: nat)
    requires 0 < k < |events| && !events[0].Bind?
    ensures BeforeBind(events, k) <==> BeforeBind(events[1..], k - 1)
  {
    if BeforeBind(events[1..], k - 1) {
      forall i | 0 <= i <= k
        ensures !events[i].Bind?
      {
        assert i > 0 ==> !events[1..][i - 1].Bind?;
      }
    }
  }

  lemma TailInOrder(events: seq<Event>)
    requires events != [] && !events[0].Bind? && !events[0].Stop?
    ensures StopBeforeBind(events) <==> StopBeforeBind(events[1..])
    ensures InOrder(events) ==> InOrder(events[1..])
  {
    forall k: nat | 0 < k < |events|
      ensures BeforeBind(events, k) <==> BeforeBind(events[1..], k - 1)
    {
      BeforeBindShifts(events, k);
    }
    if StopBeforeBind(events) {
      var k: nat :| k < |events| && events[k].Stop? && BeforeBind(events, k);
      assert events[1..][k - 1].Stop? && BeforeBind(events[1..], k - 1);
    }
    if StopBeforeBind(events[1..]) {
      var k: nat :| k < |events[1..]| && events[1..][k].Stop? && BeforeBind(events[1..], k);
      assert events[k + 1].Stop? && BeforeBind(events, k + 1);
    }
    if InOrder(events) {
      forall k: nat | k < |events[1..]| && events[1..][k].Shutdown?
        ensures !BeforeBind(events[1..], k)
      {
        assert events[k + 1].Shutdown? && !BeforeBind(events, k + 1);
      }
    }
  }

  /**
   From the moment Start unlocks an armed watchdog, whatever comes: the process ends by calling a nil cancel function
   if and only if a Stop comes before that function is assigned.
   */
  lemma {:induction false} CrashesExactly(w: Wd, events: seq<Event>)
    requires w.status == Armed && !w.stopBound && !w.crashed && InOrder(events)
    ensures Run(w, events).crashed <==> StopBeforeBind(events)
    decreases |events|
  {
    if events == [] {
    } else if events[0].Bind? {
      BoundNeverCrashes(Step(w, Bind), events[1..]);
    } else if events[0].Stop? {
      CrashedForever(Step(w, Stop), events[1..]);
      assert BeforeBind(events, 0);
    } else {
      assert events[0].Shutdown? ==> BeforeBind(events, 0);
      TailInOrder(events);
      CrashesExactly(Step(w, events[0]), events[1..]);
    }
  }

  lemma {:induction false} RunAppend(w: Wd, a: seq<Event>, b: seq<Event>)
    ensures Run(w, a + b) == Run(Run(w, a), b)
    decreases |a|
  {
    if a == [] {
      assert a + b == b;
    } else {
      assert (a + b)[1..] == a[1..] + b;
      RunAppend(Step(w, a[0]), a[1..], b);
    }
  }

  predicate NoStart(events: seq<Event>) {
    forall i :: 0 <= i < |events| ==> !events[i].Arm?
  }

  /** The first event that ends the feeding of an armed watchdog: a Stop, or a shutdown that closes the device. */
  function FirstChange(events: seq<Event>): (c: Option<Event>)
    ensures c.Some? ==> c.value.Stop? || c.value == Shutdown(true)
  {
    if events == [] then None
    else if events[0].Stop? || (events[0].Shutdown? && events[0].ok) then Some(events[0])
    else FirstChange(events[1..])
  }

  lemma {:induction false} FirstChangeAppend(a: seq<Event>, b: seq<Event>)
    ensures FirstChange(a + b) == if FirstChange(a).Some? then FirstChange(a) else FirstChange(b)
    decreases |a|
  {
    if a == [] {
      assert a + b == b;
    } else {
      assert (a + b)[1..] == a[1..] + b;
      FirstChangeAppend(a[1..], b);
    }
  }

  /** Without a Start, a watchdog that was shut down stays disarmed. */
  lemma {:induction false} DisarmedForever(w: Wd, events: seq<Event>)
    requires w.status == Disarmed && !w.crashed && NoStart(events)
    ensures Run(w, events).status == Disarmed && !Run(w, events).crashed
    decreases |events|
  {
    if events == [] {
    } else {
      DisarmedForever(Step(w, events[0]), events[1..]);
    }
  }

  /** What has become of an armed watchdog is what the first change made of it, unless the process has ended. */
  lemma {:induction false} StatusAfter(w: Wd, events: seq<Event>)
    requires w.status == Armed && !w.crashed && NoStart(events)
    requires w.stopBound || (InOrder(events) && !StopBeforeBind(events))
    ensures var v := Run(w, events);
            && !v.crashed
            && v.status == match FirstChange(events)
                           case None => Armed
                           case Some(Stop) => Triggered
                           case Some(_) => Disarmed
    decreases |events|
  {
    if events == [] {
      return;
    }
    assert events[0].Bind? || BeforeBind(events, 0);
    if events[0].Stop? {
      TriggeredForever(Step(w, Stop), events[1..]);
    } else if events[0].Shutdown? && events[0].ok {
      DisarmedForever(Step(w, events[0]), events[1..]);
    } else {
      if !events[0].Bind? && !w.stopBound {
        TailInOrder(events);
      }
      StatusAfter(Step(w, events[0]), events[1..]);
    }
  }

  lemma {:induction false} OnceArmed(w: Wd, events: seq<Event>)
    requires w.status in {Armed, Triggered, Disarmed} && (w.crashed ==> w.status == Armed && !w.stopBound)
    requires NoStart(events)
    ensures var v := Run(w, events);
            v.status in {Armed, Triggered, Disarmed} && (v.crashed ==> v.status == Armed && !v.stopBound)
    decreases |events|
  {
    if events == [] {
    } else {
      OnceArmed(Step(w, events[0]), events[1..]);
    }
  }

  /** Up to a call of a nil cancel function, the watchdog is armed. */
  lemma ArmedBeforeCrash(w: Wd, a: seq<Event>, b: seq<Event>)
    requires w.status == Armed && !w.crashed && NoStart(a) && NoStart(b) && Run(w, a + b).crashed
    ensures Run(w, a).status == Armed && !Run(w, a).stopBound
  {
    var v := Run(w, a);
    RunAppend(w, a, b);
    OnceArmed(w, a);
    if v.crashed {
    } else if v.stopBound {
      BoundNeverCrashes(v, b);
    } else if v.status == Triggered {
      TriggeredForever(v, b);
    } else if v.status == Disarmed {
      DisarmedForever(v, b);
    }
  }

  lemma PrefixInOrder(a: seq<Event>, b: seq<Event>)
    requires InOrder(a + b)
    ensures InOrder(a) && (StopBeforeBind(a) ==> StopBeforeBind(a + b))
  {
    forall k: nat | k < |a|
      ensures BeforeBind(a, k) <==> BeforeBind(a + b, k)
    {
      assert forall i :: 0 <= i <= k ==> a[i] == (a + b)[i];
    }
    forall k: nat | k < |a| && a[k].Shutdown?
      ensures !BeforeBind(a, k)
    {
      assert (a + b)[k].Shutdown?;
    }
    if StopBeforeBind(a) {
      var k: nat :| k < |a| && a[k].Stop? && BeforeBind(a, k);
      assert (a + b)[k].Stop? && BeforeBind(a + b, k);
    }
  }

  /**
   Start unlocks before it assigns the cancel function: a Stop in between ends the process, with the device running.
   */
  lemma StopInStartWindow(timeout: int, now: int)
    ensures Run(NEW_WD, [Arm(Opened(timeout), now), Stop]) == Wd(Armed, timeout, None, false, Running(now), true)
  {
    var events := [Arm(Opened(timeout), now), Stop];
    var armed := Step(NEW_WD, events[0]);
    assert events[1..] == [Stop];
    assert Run(armed, [Stop]) == Run(Step(armed, Stop), []);
  }

  // ---------- feeding while armed ----------

  function FeedPeriod(w: Wd): int {
    QuoTrunc(w.timeout, 3)
  }

  /** Feed attempts at most a period apart, never two failures in a row; `missed` says whether the last one failed. */
  predicate FeedsKeepUp(ticks: seq<Event>, period: int, last: int, missed: bool) {
    ticks == [] ||
    (&& ticks[0].Feed?
     && last <= ticks[0].now <= last + period
     && !(missed && !ticks[0].ok)
     && FeedsKeepUp(ticks[1..], period, ticks[0].now, !ticks[0].ok))
  }

  /**
   While armed, one missed feed does no harm: if feeds come a third of the timeout apart and no two in a row fail, every
   feed finds the device before its deadline.
   */
  lemma {:induction false} OneMissedFeedIsHarmless(w: Wd, ticks: seq<Event>, last: int, missed: bool, k: nat)
    requires w.status == Armed && w.device.Running? && w.timeout > 0 && !w.crashed
    requires w.device.fed <= last && last - w.device.fed <= if missed then FeedPeriod(w) else 0
    requires FeedsKeepUp(ticks, FeedPeriod(w), last, missed) && k < |ticks|
    ensures ticks[k].Feed? && Run(w, ticks[..k]).device.Running?
    ensures !Run(w, ticks[..k]).Expired(ticks[k].now)
    decreases |ticks|
  {
    if k == 0 {
      assert ticks[..0] == [];
    } else {
      assert ticks[..k][1..] == ticks[1..][..k - 1];
      OneMissedFeedIsHarmless(Step(w, ticks[0]), ticks[1..], ticks[0].now, !ticks[0].ok, k - 1);
    }
  }

  /** Two missed feeds in a row can be fatal: with a timeout of three periods the third attempt comes too late. */
  lemma TwoMissedFeedsAreFatal(w: Wd, period: int)
    requires w.status == Armed && w.device.Running? && period > 0 && w.timeout == 3 * period && !w.crashed
    ensures FeedPeriod(w) == period
    ensures var ticks := [Feed(false, w.device.fed + period), Feed(false, w.device.fed + 2 * period)];
            Run(w, ticks).Expired(w.device.fed + 3 * period)
  {
    var ticks := [Feed(false, w.device.fed + period), Feed(false, w.device.fed + 2 * period)];
    assert ticks[1..] == [ticks[1]];
    assert Step(w, ticks[0]) == w;
    assert Run(w, ticks[1..]) == Run(Step(w, ticks[1]), []);
  }
}
