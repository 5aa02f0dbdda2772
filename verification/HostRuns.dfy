/**
 Runs of an isolated host that last as long as they can: waits, calls and batches are stretched such that a last check
 ends just in time to be taken for healthy, and the next one takes as long as it may.
 */
module HostRuns {
  import opened Basics
  import opened Batches
  import opened ApiCheck
  import opened Calculator
  import opened Rebooter
  import opened Isolation
  import Dog = Watchdog

  // ---------- runs, one step at a time ----------

  /** A run of the host alone, isolated from `since` on, in which the agent's reconcile does not interfere. */
  ghost predicate HostRun(s: Process, events: seq<Event>, t: Process, since: int, p: Params)
    decreases |events|
  {
    if events == [] then s == t
    else
      && Enabled(s, events[0]) && !events[0].AgentReboots?
      && WithinBatches(events[0], p) && (s.now >= since ==> Isolating(events[0], p))
      && HostRun(Next(s, events[0], p), events[1..], t, since, p)
  }

  lemma {:induction false} Then(s: Process, events: seq<Event>, t: Process, e: Event, since: int, p: Params)
    returns (longer: seq<Event>, u: Process)
    requires HostRun(s, events, t, since, p) && Enabled(t, e) && !e.AgentReboots?
    requires WithinBatches(e, p) && (t.now >= since ==> Isolating(e, p))
    ensures u == Next(t, e, p) && HostRun(s, longer, u, since, p)
    decreases |events|
  {
    u := Next(t, e, p);
    longer := events + [e];
    if events == [] {
      assert longer == [e] && [e][1..] == [];
    } else {
      var rest, v := Then(Next(s, events[0], p), events[1..], t, e, since, p);
      longer := [events[0]] + rest;
      assert longer[1..] == rest;
    }
  }

  lemma {:induction false} HostRunReaches(s: Process, events: seq<Event>, t: Process, since: int, p: Params)
    requires HostRun(s, events, t, since, p)
    ensures Reaches(s, events, t, p)
    ensures forall i :: 0 <= i < |events| ==> WithinBatches(events[i], p)
    decreases |events|
  {
    if events == [] {
    } else {
      HostRunReaches(Next(s, events[0], p), events[1..], t, since, p);
      assert forall i :: 0 < i < |events| ==> events[i] == events[1..][i - 1];
    }
  }

  /** What a new agent's host reaches arises. */
  lemma NewAgentReaches(start: int, events: seq<Event>, s: Process, since: int, p: Params)
    requires HostRun(NewAgent(start, p), events, s, since, p)
    ensures Arises(s, p)
  {
    HostRunReaches(NewAgent(start, p), events, s, since, p);
    assert ArisesFrom(start, events, s, p);
  }

  function Fed(wd: Dog.Wd, now: int): Dog.Wd {
    wd.(lastFood := Some(now), device := Dog.Running(now))
  }

  /** An armed watchdog is fed until now, a triggered one is not. */
  function Kept(wd: Dog.Wd, now: int): Dog.Wd {
    if wd.status == Dog.Armed then Fed(wd, now) else wd
  }

  /** A running host whose watchdog is fed, or triggered. */
  predicate Running(s: Process, p: Params) {
    && !s.stopped && !s.reset && s.wd.status in {Dog.Armed, Dog.Triggered} && s.wd.stopBound && !s.wd.crashed
    && s.wd.device.Running? && s.wd.device.fed <= s.now < s.wd.device.fed + p.watchdogTimeout
    && s.wd.timeout == p.watchdogTimeout
  }

  /** The host can run until then. */
  predicate CanLast(s: Process, until: int) {
    s.now <= until && (s.wd.status == Dog.Triggered && s.wd.device.Running? ==> until < s.wd.Deadline())
  }

  /** Time passes until `until`; an armed watchdog is fed often enough, and last at the end. */
  lemma {:induction false} Pass(s: Process, events: seq<Event>, t: Process, until: int, since: int, p: Params)
    returns (longer: seq<Event>, u: Process)
    requires HostRun(s, events, t, since, p) && Running(t, p) && p.watchdogTimeout >= 2
    requires CanLast(t, until) && until <= t.place.due
    ensures HostRun(s, longer, u, since, p) && Running(u, p)
    ensures u == t.(now := until, wd := Kept(t.wd, until))
    decreases until - t.now
  {
    if t.wd.status == Dog.Triggered {
      longer, u := Then(s, events, t, Tick(until), since, p);
    } else {
      longer, u := Then(s, events, t, Feeds(true), since, p);
      if t.now < until {
        longer, u := Then(s, longer, u, Tick(Min(until, t.now + p.watchdogTimeout - 1)), since, p);
        longer, u := Pass(s, longer, u, until, since, p);
      }
    }
  }

  // ---------- rounds without answers ----------

  function NoReplies(n: nat): seq<int> {
    seq(n, _ => REQUEST_FAILED)
  }

  predicate InRound(s: Process) {
    s.place.Asking? && 2 * s.place.apiErrors <= s.place.total && 0 < s.place.remaining <= s.place.total
  }

  function LeftAfterBatch(s: Process): int
    requires s.place.Asking?
  {
    s.place.remaining - GetNextBatchSize(s.place.total, s.place.remaining)
  }

  /** Nobody in the current batch answers. */
  function Silence(s: Process): Event
    requires InRound(s)
  {
    BatchAnswers(NoReplies(GetNextBatchSize(s.place.total, s.place.remaining)))
  }

  lemma NobodyAnswers(n: nat)
    ensures |NoReplies(n)| == n && !Answered(NoReplies(n)) && ApiErrors(NoReplies(n)) == 0
  {
    SilentBatch(NoReplies(n));
  }

  lemma SilenceIsolates(s: Process, p: Params)
    requires InRound(s)
    ensures Isolating(Silence(s), p) && |Silence(s).replies| == GetNextBatchSize(s.place.total, s.place.remaining)
  {
    NobodyAnswers(GetNextBatchSize(s.place.total, s.place.remaining));
  }

  /** A silent round ends: the rebooter is called if nobody has answered for too long. */
  function Concluded(s: Process, p: Params): Process {
    var waiting := s.(place := Waiting(s.now + p.cfg.apiCheckInterval));
    if s.now > s.detector.lastPeerResponse + SILENCE then CallRebooter(waiting, p) else waiting
  }

  lemma SilentReply(s: Process, p: Params)
    requires InRound(s)
    ensures var left, t := LeftAfterBatch(s), Next(s, Silence(s), p);
            t == if left > 0 then s.(place := Asking(s.now + p.BatchTime(), s.place.total, left, s.place.apiErrors))
                 else Concluded(s, p)
  {
    NobodyAnswers(GetNextBatchSize(s.place.total, s.place.remaining));
  }

  lemma RoundShrinks(total: int, remaining: int, time: int)
    requires remaining > 0 && time >= 0
    ensures var left := remaining - GetNextBatchSize(total, remaining);
            && BatchesLeft(total, remaining) * time == time + BatchesLeft(total, left) * time
            && BatchesLeft(total, left) * time >= 0
            && (left <= 0 ==> BatchesLeft(total, remaining) * time == time)
  {
    var left := BatchesLeft(total, remaining - GetNextBatchSize(total, remaining));
    Distribute(left, time);
    Scale(0, left, time);
  }

  /** A batch that ends at `end`, without an answer. */
  lemma Batch(s: Process, events: seq<Event>, t: Process, end: int, since: int, p: Params)
    returns (longer: seq<Event>, u: Process)
    requires p.watchdogTimeout >= 2 && HostRun(s, events, t, since, p) && Running(t, p)
    requires InRound(t) && CanLast(t, end) && end <= t.place.due
    ensures HostRun(s, longer, u, since, p)
    ensures var x, left := t.(now := end, wd := Kept(t.wd, end)), LeftAfterBatch(t);
            u == if left > 0 then x.(place := Asking(end + p.BatchTime(), t.place.total, left, t.place.apiErrors))
                 else Concluded(x, p)
  {
    longer, u := Pass(s, events, t, end, since, p);
    SilenceIsolates(u, p);
    SilentReply(u, p);
    longer, u := Then(s, longer, u, Silence(u), since, p);
  }

  /** The rest of a round, without answers, ends at any time at which it may. */
  lemma {:induction false} Round(s: Process, events: seq<Event>, t: Process, end: int, since: int, p: Params)
    returns (longer: seq<Event>, u: Process)
    requires p.Valid() && p.watchdogTimeout >= 2 && HostRun(s, events, t, since, p) && Running(t, p)
    requires InRound(t) && CanLast(t, end) && t.place.due == t.now + p.BatchTime()
    requires end <= t.now + BatchesLeft(t.place.total, t.place.remaining) * p.BatchTime()
    ensures HostRun(s, longer, u, since, p)
    ensures u == Concluded(t.(now := end, wd := Kept(t.wd, end)), p)
    decreases t.place.remaining
  {
    RoundShrinks(t.place.total, t.place.remaining, p.BatchTime());
    longer, u := Batch(s, events, t, Min(t.place.due, end), since, p);
    if LeftAfterBatch(t) > 0 {
      longer, u := Round(s, longer, u, end, since, p);
    }
  }

  /** Time passes within a round, which does not end. */
  lemma {:induction false} WithinRound(s: Process, events: seq<Event>, t: Process, until: int, since: int, p: Params)
    returns (longer: seq<Event>, u: Process)
    requires p.Valid() && p.watchdogTimeout >= 2 && HostRun(s, events, t, since, p) && Running(t, p)
    requires InRound(t) && CanLast(t, until) && t.place.due == t.now + p.BatchTime()
    requires until <= t.now + BatchesLeft(t.place.total, t.place.remaining) * p.BatchTime()
    ensures HostRun(s, longer, u, since, p) && u.now == until && Running(u, p)
    decreases t.place.remaining
  {
    RoundShrinks(t.place.total, t.place.remaining, p.BatchTime());
    if until <= t.place.due {
      longer, u := Pass(s, events, t, until, since, p);
    } else {
      longer, u := Batch(s, events, t, t.place.due, since, p);
      longer, u := WithinRound(s, longer, u, until, since, p);
    }
  }

  // ---------- checks ----------

  /**
   What every deployment has: intervals of at least a second, as admission demands, a watchdog timeout of at least a
   second, as devices count in seconds, and a peer list that takes the most batches.
   */
  ghost predicate Admissible(p: Params) {
    && p.Valid() && p.cfg.apiCheckInterval >= SECOND && p.watchdogTimeout >= SECOND
    && exists n: nat :: n in p.lists && n >= 1 && BatchesLeft(n, n) == p.batches
  }

  /** A peer list that takes the most batches. */
  ghost function Listed(p: Params): (n: nat)
    requires Admissible(p)
    ensures n in p.lists && n >= 1 && BatchesLeft(n, n) == p.batches >= 1
  {
    var n: nat :| n in p.lists && n >= 1 && BatchesLeft(n, n) == p.batches;
    n
  }

  /** The longest a check takes after that many failures. */
  function CheckTime(errors: int, p: Params): int {
    p.cfg.apiServerTimeout + if errors + 1 < p.Threshold() then 0 else RoundTime(p)
  }

  /** After a failed check that ended at `end`: below the threshold nothing happens. */
  function Checked(t: Process, end: int, p: Params): Process {
    var d := t.detector.(errorCount := t.detector.errorCount + 1);
    var x := t.(now := end, wd := Kept(t.wd, end), detector := d);
    if d.errorCount < p.Threshold() then x.(place := Waiting(end + p.cfg.apiCheckInterval)) else Concluded(x, p)
  }

  /** The API call of a check fails; it ends at `end`. */
  lemma FailedCall(s: Process, events: seq<Event>, t: Process, end: int, since: int, p: Params)
    returns (longer: seq<Event>, u: Process)
    requires Admissible(p) && HostRun(s, events, t, since, p) && Running(t, p) && t.place.Waiting?
    requires t.now <= t.place.due <= end <= t.place.due + p.cfg.apiServerTimeout && CanLast(t, end)
    ensures HostRun(s, longer, u, since, p) && Running(u, p)
    ensures var d := t.detector.(errorCount := t.detector.errorCount + 1);
            u == t.(now := end, wd := Kept(t.wd, end), detector := d,
                    place := if d.errorCount < p.Threshold() then Waiting(end + p.cfg.apiCheckInterval)
                             else Asking(end + p.BatchTime(), Listed(p), Listed(p), 0))
  {
    longer, u := Pass(s, events, t, t.place.due, since, p);
    longer, u := Then(s, longer, u, CheckStarts, since, p);
    longer, u := Pass(s, longer, u, end, since, p);
    longer, u := Then(s, longer, u, ApiAnswers(false, Listed(p)), since, p);
  }

  /** A failed check ends at any time at which it may. */
  lemma Check(s: Process, events: seq<Event>, t: Process, end: int, since: int, p: Params)
    returns (longer: seq<Event>, u: Process)
    requires Admissible(p) && HostRun(s, events, t, since, p) && Running(t, p) && t.place.Waiting?
    requires t.now <= t.place.due <= end <= t.place.due + CheckTime(t.detector.errorCount, p) && CanLast(t, end)
    ensures HostRun(s, longer, u, since, p) && u == Checked(t, end, p)
  {
    var called := Min(end, t.place.due + p.cfg.apiServerTimeout);
    longer, u := FailedCall(s, events, t, called, since, p);
    if t.detector.errorCount + 1 >= p.Threshold() {
      Scale(0, p.batches, p.BatchTime());
      CalledThenConcluded(t, called, u.place, end, p);
      longer, u := Round(s, longer, u, end, since, p);
    }
  }

  lemma CalledThenConcluded(t: Process, called: int, place: Place, end: int, p: Params)
    requires t.detector.errorCount + 1 >= p.Threshold()
    ensures var d := t.detector.(errorCount := t.detector.errorCount + 1);
            var asking := t.(now := called, wd := Kept(t.wd, called), detector := d, place := place);
            Concluded(asking.(now := end, wd := Kept(asking.wd, end)), p) == Checked(t, end, p)
  {
  }

  /** Time passes within a check that does not end. */
  lemma WithinCheck(s: Process, events: seq<Event>, t: Process, until: int, since: int, p: Params)
    returns (longer: seq<Event>, u: Process)
    requires Admissible(p) && HostRun(s, events, t, since, p) && Running(t, p)
    requires t.place.Waiting? && t.now <= t.place.due && t.detector.errorCount + 1 >= p.Threshold()
    requires CanLast(t, until) && until <= t.place.due + CheckTime(t.detector.errorCount, p)
    ensures HostRun(s, longer, u, since, p) && u.now == until && Running(u, p)
  {
    if until <= t.place.due {
      longer, u := Pass(s, events, t, until, since, p);
    } else if until <= t.place.due + p.cfg.apiServerTimeout {
      longer, u := Pass(s, events, t, t.place.due, since, p);
      longer, u := Then(s, longer, u, CheckStarts, since, p);
      longer, u := Pass(s, longer, u, until, since, p);
    } else {
      longer, u := FailedCall(s, events, t, t.place.due + p.cfg.apiServerTimeout, since, p);
      longer, u := WithinRound(s, longer, u, until, since, p);
    }
  }

  // ---------- checks without consequences ----------

  /** A check that ends by then leaves the watchdog and the host alone. */
  predicate Harmless(t: Process, errors: int, end: int, p: Params) {
    || errors + 1 < p.Threshold()
    || end <= t.detector.lastPeerResponse + SILENCE
    || (t.wd.status == Dog.Triggered && (p.software ==> t.wd.lastFood.Some? && end <= t.wd.lastFood.value + SILENCE))
  }

  lemma HarmlessCheck(t: Process, end: int, p: Params)
    requires Running(t, p) && Harmless(t, t.detector.errorCount, end, p)
    ensures Checked(t, end, p)
            == t.(now := end, wd := Kept(t.wd, end), place := Waiting(end + p.cfg.apiCheckInterval),
                  detector := t.detector.(errorCount := t.detector.errorCount + 1))
  {
  }

  /** The latest end of the last of `n + 1` checks, the first of which is due at `due`. */
  function LatestEnd(due: int, errors: int, n: nat, p: Params): int
    decreases n
  {
    var end := due + CheckTime(errors, p);
    if n == 0 then end else LatestEnd(end + p.cfg.apiCheckInterval, errors + 1, n - 1, p)
  }

  lemma {:induction false} LatestEndAtLeast(due: int, errors: int, n: nat, p: Params)
    requires p.Valid()
    ensures LatestEnd(due, errors, n, p) >= due + n * p.cfg.apiCheckInterval
    decreases n
  {
    Scale(0, p.batches, p.BatchTime());
    if n == 0 {
    } else {
      LatestEndAtLeast(due + CheckTime(errors, p) + p.cfg.apiCheckInterval, errors + 1, n - 1, p);
      Distribute(n - 1, p.cfg.apiCheckInterval);
    }
  }

  /** The end without the recursion: all checks have a turn, those from the threshold on also a round. */
  lemma {:induction false} LatestEndIs(due: int, errors: int, n: nat, p: Params)
    ensures var below := Max(0, p.Threshold() - 1 - errors);
            LatestEnd(due, errors, n, p)
            == due + p.cfg.apiServerTimeout + n * p.Turn() + Max(0, n + 1 - below) * RoundTime(p)
    decreases n
  {
    if n == 0 {
    } else {
      var below := Max(0, p.Threshold() - 1 - errors);
      LatestEndIs(due + CheckTime(errors, p) + p.cfg.apiCheckInterval, errors + 1, n - 1, p);
      Distribute(n - 1, p.Turn());
      Distribute(n, RoundTime(p));
    }
  }

  /** The next of these checks ends as late as it may, but early enough for the others to follow. */
  function NextEnd(due: int, errors: int, n: nat, end: int, p: Params): int {
    Min(due + CheckTime(errors, p), end - n * p.cfg.apiCheckInterval)
  }

  lemma NextEndFits(due: int, errors: int, n: nat, end: int, p: Params)
    requires p.Valid() && due + n * p.cfg.apiCheckInterval <= end <= LatestEnd(due, errors, n, p)
    ensures due <= NextEnd(due, errors, n, end, p) <= Min(end, due + CheckTime(errors, p))
    ensures n == 0 ==> NextEnd(due, errors, n, end, p) == end
    ensures n > 0 ==>
              var next := NextEnd(due, errors, n, end, p) + p.cfg.apiCheckInterval;
              next + (n - 1) * p.cfg.apiCheckInterval <= end <= LatestEnd(next, errors + 1, n - 1, p)
  {
    Scale(0, p.batches, p.BatchTime());
    Scale(0, n, p.cfg.apiCheckInterval);
    if n > 0 {
      Distribute(n - 1, p.cfg.apiCheckInterval);
      LatestEndAtLeast(NextEnd(due, errors, n, end, p) + p.cfg.apiCheckInterval, errors + 1, n - 1, p);
    }
  }

  /** `n + 1` harmless checks, the last of which ends at any time at which it may. */
  lemma {:induction false} Checks(s: Process, events: seq<Event>, t: Process, n: nat, end: int, since: int, p: Params)
    returns (longer: seq<Event>, u: Process)
    requires Admissible(p) && HostRun(s, events, t, since, p) && Running(t, p) && t.wd.status == Dog.Armed
    requires t.place.Waiting? && t.now <= t.place.due && Harmless(t, t.detector.errorCount + n, end, p)
    requires t.place.due + n * p.cfg.apiCheckInterval <= end
    requires end <= LatestEnd(t.place.due, t.detector.errorCount, n, p)
    ensures HostRun(s, longer, u, since, p) && Running(u, p)
    ensures u == t.(now := end, wd := Fed(t.wd, end), place := Waiting(end + p.cfg.apiCheckInterval),
                    detector := t.detector.(errorCount := t.detector.errorCount + n + 1))
    decreases n
  {
    var first := NextEnd(t.place.due, t.detector.errorCount, n, end, p);
    NextEndFits(t.place.due, t.detector.errorCount, n, end, p);
    HarmlessCheck(t, first, p);
    longer, u := Check(s, events, t, first, since, p);
    if n > 0 {
      longer, u := Checks(s, longer, u, n - 1, end, since, p);
    }
  }
}
