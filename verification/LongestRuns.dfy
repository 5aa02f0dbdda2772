/**
 The detection bound is attained, and so is the life of a host after the rebooter was called: runs of an agent, from its
 start on, that last exactly that long.
 */
module LongestRuns {
  import opened Basics
  import opened Batches
  import opened ApiCheck
  import opened Calculator
  import opened Rebooter
  import opened Isolation
  import opened HostRuns
  import Dog = Watchdog

  function ArmedAt(now: int, p: Params): Dog.Wd {
    Dog.Wd(Dog.Armed, p.watchdogTimeout, Some(now), true, Dog.Running(now), false)
  }

  /** At the end of a check, after that many failures, with the watchdog just fed. */
  function AfterCheck(now: int, errors: int, last: int, p: Params): Process {
    Process(now, Detector(errors, last), Waiting(now + p.cfg.apiCheckInterval), ArmedAt(now, p), false, false)
  }

  // ---------- where the isolation begins ----------

  /** An agent that has started at some time, with its watchdog just fed. */
  ghost predicate StartsAt(s: Process, now: int, p: Params) {
    Arises(s, p) && s.now == now && s.wd == ArmedAt(now, p)
  }

  lemma StartsAlive(s: Process, now: int, p: Params)
    requires p.Valid() && StartsAt(s, now, p)
    ensures Alive(s, p)
  {
    ArisesOnTime(s, p);
  }

  /** Just after a new agent's first API call, which succeeded. */
  lemma Succeeded(now: int, p: Params) returns (s: Process)
    requires Admissible(p)
    ensures s == AfterCheck(now, 0, now, p) && Arises(s, p)
  {
    var a := NewAgent(now, p);
    var events, t := Then(a, [], a, CheckStarts, now + 1, p);
    events, s := Then(a, events, t, ApiAnswers(true, Listed(p)), now + 1, p);
    NewAgentReaches(now, events, s, now + 1, p);
  }

  /** One peer of a batch answers that it cannot reach the API server. */
  function OneApiError(n: nat): seq<int>
    requires n >= 1
  {
    [API_ERROR] + NoReplies(n - 1)
  }

  lemma OneAnswers(n: nat)
    requires n >= 1
    ensures var replies := OneApiError(n);
            && |replies| == n && Answered(replies) && ApiErrors(replies) == 1
            && HEALTHY !in replies && UNHEALTHY !in replies
  {
    NobodyAnswers(n - 1);
    assert multiset(OneApiError(n)) == multiset{API_ERROR} + multiset(NoReplies(n - 1));
  }

  /** Just after one peer has answered in the first batch of a round. */
  ghost function AnsweredFirst(now: int, p: Params): Process
    requires Admissible(p)
  {
    var n := Listed(p);
    var left := n - GetNextBatchSize(n, n);
    var s := AfterCheck(now, p.Threshold(), now, p);
    if left > 0 then s.(place := Asking(now + p.BatchTime(), n, left, 1)) else s
  }

  /** A new agent fails as often as the threshold says, in no time. */
  lemma FailsUntil(now: int, p: Params) returns (start: int, events: seq<Event>, t: Process)
    requires Admissible(p)
    ensures HostRun(NewAgent(start, p), events, t, now + 1, p) && Running(t, p)
    ensures t.now == now && t.wd == ArmedAt(now, p) && !t.stopped && !t.reset && t.detector.errorCount == p.Threshold()
    ensures t.place == Asking(now + p.BatchTime(), Listed(p), Listed(p), 0)
  {
    var i, n := p.cfg.apiCheckInterval, p.Threshold() - 1;
    start := now - n * i;
    var a := NewAgent(start, p);
    events, t := [], a;
    if n > 0 {
      Distribute(n - 1, i);
      LatestEndAtLeast(start, 0, n - 1, p);
      events, t := Checks(a, [], a, n - 1, now - i, now + 1, p);
    }
    events, t := FailedCall(a, events, t, now, now + 1, p);
  }

  lemma AnsweredFirstArises(now: int, p: Params) returns (s: Process)
    requires Admissible(p)
    ensures s == AnsweredFirst(now, p) && Arises(s, p)
  {
    var start, events, t := FailsUntil(now, p);
    var replies := OneApiError(GetNextBatchSize(Listed(p), Listed(p)));
    OneAnswers(GetNextBatchSize(Listed(p), Listed(p)));
    events, s := Then(NewAgent(start, p), events, t, BatchAnswers(replies), now + 1, p);
    NewAgentReaches(start, events, s, now + 1, p);
  }

  // ---------- the longest detection ----------

  /** The last check takes as long as it may and ends with the rebooter being called, just after a feed. */
  lemma LastCheck(s: Process, events: seq<Event>, t: Process, since: int, p: Params)
    returns (longer: seq<Event>, u: Process)
    requires Admissible(p) && HostRun(s, events, t, since, p) && Running(t, p) && t.wd.status == Dog.Armed
    requires t.place == Waiting(t.now + p.cfg.apiCheckInterval) && t.detector.errorCount + 1 >= p.Threshold()
    requires t.now + Cycle(p) > t.detector.lastPeerResponse + SILENCE
    ensures HostRun(s, longer, u, since, p) && Running(u, p)
    ensures u.now == t.now + Cycle(p) && u.place == Waiting(u.now + p.cfg.apiCheckInterval)
    ensures u.wd.status == Dog.Triggered && u.wd.device.fed == u.now && u.wd.lastFood == Some(u.now)
    ensures u.detector.errorCount >= p.Threshold()
  {
    Positive(p);
    longer, u := Check(s, events, t, t.now + Cycle(p), since, p);
  }

  /** As many failures as the threshold says, each after a turn. */
  lemma ThresholdRun(since: int, p: Params) returns (s: Process, events: seq<Event>, t: Process)
    requires Admissible(p) && p.Threshold() * p.Turn() + RoundTime(p) > SILENCE
    ensures StartsAt(s, since, p) && HostRun(s, events, t, since, p) && Running(t, p)
    ensures t.now == since + p.Threshold() * p.Turn() + RoundTime(p)
    ensures t.place == Waiting(t.now + p.cfg.apiCheckInterval) && t.detector.errorCount >= p.Threshold()
    ensures t.wd.status == Dog.Triggered && t.wd.device.fed == t.now && t.wd.lastFood == Some(t.now)
  {
    var n := p.Threshold() - 1;
    Distribute(n, p.Turn());
    s := Succeeded(since, p);
    events, t := [], s;
    if n > 0 {
      LatestEndIs(s.place.due, 0, n - 1, p);
      LatestEndAtLeast(s.place.due, 0, n - 1, p);
      Distribute(n - 1, p.Turn());
      events, t := Checks(s, [], s, n - 1, since + n * p.Turn(), since, p);
    }
    events, t := LastCheck(s, events, t, since, p);
  }

  lemma WaitsFit(p: Params)
    requires p.Valid()
    ensures var n, i := WaitsInSilence(p), p.cfg.apiCheckInterval;
            0 <= n * i <= SILENCE < (n + 1) * i && n * i <= n * Cycle(p) && (n + 1) * i <= (n + 1) * Cycle(p)
  {
    var n, i := WaitsInSilence(p), p.cfg.apiCheckInterval;
    Positive(p);
    assert SILENCE == n * i + SILENCE % i;
    Distribute(n, i);
    MulMonotone(n + 1, i, Cycle(p));
    if n > 0 {
      MulMonotone(n, i, Cycle(p));
    }
  }

  /** The rest of the answered round, if there is any, ends at `end`. */
  lemma RestOfRound(s: Process, end: int, since: int, p: Params) returns (events: seq<Event>, t: Process)
    requires Admissible(p) && s == AnsweredFirst(since, p)
    requires since <= end <= since + Min(SILENCE, (p.batches - 1) * p.BatchTime())
    ensures HostRun(s, events, t, since, p) && t == AfterCheck(end, p.Threshold(), since, p)
  {
    events, t := [], s;
    if s.place.Asking? {
      events, t := Round(s, [], s, end, since, p);
    }
  }

  /** After an answered round, a check ends at the last quiet instant. */
  lemma TailRun(since: int, end: int, p: Params) returns (s: Process, events: seq<Event>, t: Process)
    requires Admissible(p)
    requires since + WaitsInSilence(p) * p.cfg.apiCheckInterval <= end <= since + Min(SILENCE, TailEnd(p))
    ensures StartsAt(s, since, p) && HostRun(s, events, t, since, p)
    ensures exists errors :: errors >= p.Threshold() && t == AfterCheck(end, errors, since, p)
  {
    var n, i := WaitsInSilence(p), p.cfg.apiCheckInterval;
    s := AnsweredFirstArises(since, p);
    WaitsFit(p);
    Positive(p);
    Scale(0, p.batches - 1, p.BatchTime());
    var first := Min(since + (p.batches - 1) * p.BatchTime(), end - n * i);
    events, t := RestOfRound(s, first, since, p);
    if n > 0 {
      Distribute(n - 1, i);
      LatestEndAsking(t.place.due, p.Threshold(), n - 1, p);
      events, t := Checks(s, events, t, n - 1, end, since, p);
    }
    assert t == AfterCheck(end, t.detector.errorCount, since, p);
  }

  /** From the threshold on, the checks take whole cycles. */
  lemma LatestEndAsking(due: int, errors: int, n: nat, p: Params)
    requires p.Valid() && errors + 1 >= p.Threshold()
    ensures LatestEnd(due, errors, n, p) == due - p.cfg.apiCheckInterval + (n + 1) * Cycle(p)
  {
    LatestEndIs(due, errors, n, p);
    Distribute(n, p.Turn());
    assert (n + 1) * Cycle(p) == (n + 1) * p.Turn() + (n + 1) * RoundTime(p);
  }

  lemma LatestEndNew(due: int, n: nat, p: Params)
    requires p.Valid() && n >= p.Threshold() - 1 && n == WaitsInSilence(p)
    ensures LatestEnd(due, 0, n, p) == due + NewAgentEnd(p)
  {
    var below := p.Threshold() - 1;
    LatestEndIs(due, 0, n, p);
    Distribute(n - below, RoundTime(p));
    assert (n - below) * Cycle(p) == (n - below) * p.Turn() + (n - below) * RoundTime(p);
    assert n * p.Turn() == below * p.Turn() + (n - below) * p.Turn();
  }

  /** A new agent's check ends at the last quiet instant. */
  lemma NewAgentRun(since: int, end: int, p: Params) returns (s: Process, events: seq<Event>, t: Process)
    requires Admissible(p) && p.Threshold() - 1 <= WaitsInSilence(p)
    requires since + WaitsInSilence(p) * p.cfg.apiCheckInterval <= end <= since + Min(SILENCE, NewAgentEnd(p))
    ensures StartsAt(s, since, p) && HostRun(s, events, t, since, p)
    ensures exists errors :: errors >= p.Threshold() && t == AfterCheck(end, errors, since, p)
  {
    s := NewAgent(since, p);
    NewAgentReaches(since, [], s, since, p);
    Positive(p);
    LatestEndNew(since, WaitsInSilence(p), p);
    events, t := Checks(s, [], s, WaitsInSilence(p), end, since, p);
    assert t == AfterCheck(end, t.detector.errorCount, since, p);
  }

  /** The last quiet check, however it comes about, and one more. */
  lemma SilenceRun(since: int, p: Params) returns (s: Process, events: seq<Event>, t: Process)
    requires Admissible(p)
    ensures StartsAt(s, since, p) && HostRun(s, events, t, since, p) && Running(t, p)
    ensures t.now == since + LastQuietEnd(p) + Cycle(p)
    ensures t.place == Waiting(t.now + p.cfg.apiCheckInterval) && t.detector.errorCount >= p.Threshold()
    ensures t.wd.status == Dog.Triggered && t.wd.device.fed == t.now && t.wd.lastFood == Some(t.now)
  {
    QuietEndInReach(p);
    var end := since + LastQuietEnd(p);
    if TailEnd(p) >= NewAgentEnd(p) {
      s, events, t := TailRun(since, end, p);
    } else {
      s, events, t := NewAgentRun(since, end, p);
    }
    events, t := LastCheck(s, events, t, since, p);
  }

  lemma QuietEndInReach(p: Params)
    requires Admissible(p)
    ensures WaitsInSilence(p) * p.cfg.apiCheckInterval <= LastQuietEnd(p) && LastQuietEnd(p) + Cycle(p) > SILENCE
    ensures TailEnd(p) < NewAgentEnd(p) ==> p.Threshold() - 1 <= WaitsInSilence(p)
  {
    WaitsFit(p);
    Positive(p);
    Scale(0, Max(p.batches - 1, 0), p.BatchTime());
    Distribute(WaitsInSilence(p), Cycle(p));
  }

  /**
   The longest detection: an agent that is isolated from `since` on may call the rebooter only at the detection bound,
   just after it has fed the watchdog.
   */
  lemma LongestDetection(since: int, p: Params) returns (s: Process, events: seq<Event>, t: Process)
    requires Admissible(p)
    ensures StartsAt(s, since, p) && HostRun(s, events, t, since, p) && Running(t, p)
    ensures t.now == since + DetectionBound(p)
    ensures t.place == Waiting(t.now + p.cfg.apiCheckInterval) && t.detector.errorCount >= p.Threshold()
    ensures t.wd.status == Dog.Triggered && t.wd.device.fed == t.now && t.wd.lastFood == Some(t.now)
  {
    QuietEndInReach(p);
    if p.Threshold() * p.Turn() + RoundTime(p) >= LastQuietEnd(p) + Cycle(p) {
      s, events, t := ThresholdRun(since, p);
    } else {
      s, events, t := SilenceRun(since, p);
    }
  }

  // ---------- the longest life ----------

  /** A triggered host lives on until `until`, with `n` checks before that of which the last ends at `quiet`. */
  lemma {:induction false} LiveOn(s: Process, events: seq<Event>, t: Process, n: nat, quiet: int, until: int,
                                  since: int, p: Params)
    returns (longer: seq<Event>, u: Process)
    requires Admissible(p) && HostRun(s, events, t, since, p) && Running(t, p) && t.wd.status == Dog.Triggered
    requires t.place.Waiting? && t.now <= t.place.due && t.detector.errorCount >= p.Threshold() && CanLast(t, until)
    requires t.wd.lastFood.Some? && quiet <= t.wd.lastFood.value + SILENCE
    requires if n == 0 then until <= t.place.due + CheckTime(p.Threshold(), p)
             else
               && t.place.due + (n - 1) * p.cfg.apiCheckInterval <= quiet
               && quiet <= LatestEnd(t.place.due, t.detector.errorCount, n - 1, p)
               && until <= quiet + Cycle(p)
    ensures HostRun(s, longer, u, since, p) && u.now == until && Running(u, p)
    decreases n
  {
    if until <= t.place.due + CheckTime(p.Threshold(), p) {
      longer, u := WithinCheck(s, events, t, until, since, p);
    } else {
      var next := NextEnd(t.place.due, t.detector.errorCount, n - 1, quiet, p);
      NextEndFits(t.place.due, t.detector.errorCount, n - 1, quiet, p);
      HarmlessCheck(t, next, p);
      longer, u := Check(s, events, t, next, since, p);
      longer, u := LiveOn(s, longer, u, n - 1, quiet, until, since, p);
    }
  }

  /** Without software reboots, nothing but the device ends its life. */
  lemma {:induction false} LiveOnDevice(s: Process, events: seq<Event>, t: Process, until: int, since: int, p: Params)
    returns (longer: seq<Event>, u: Process)
    requires Admissible(p) && HostRun(s, events, t, since, p) && Running(t, p) && t.wd.status == Dog.Triggered
    requires t.place.Waiting? && t.now <= t.place.due && CanLast(t, until) && !p.software
    ensures HostRun(s, longer, u, since, p) && u.now == until && Running(u, p)
    decreases until - t.place.due
  {
    if until <= t.place.due {
      longer, u := Pass(s, events, t, until, since, p);
    } else {
      Scale(0, p.batches, p.BatchTime());
      HarmlessCheck(t, t.place.due, p);
      longer, u := Check(s, events, t, t.place.due, since, p);
      longer, u := LiveOnDevice(s, longer, u, until, since, p);
    }
  }

  /** The host may still be running at every instant until the detection bound and its life after that have passed. */
  lemma LongestLife(since: int, until: int, p: Params) returns (s: Process, events: seq<Event>, t: Process)
    requires Admissible(p)
    requires since + DetectionBound(p) <= until < since + DetectionBound(p) + LifeAfterTrigger(p)
    ensures StartsAt(s, since, p) && HostRun(s, events, t, since, p)
    ensures t.now == until && Running(t, p)
  {
    s, events, t := LongestDetection(since, p);
    if p.software {
      var n := WaitsInSilence(p);
      WaitsFit(p);
      Positive(p);
      if n > 0 {
        Distribute(n - 1, p.cfg.apiCheckInterval);
        LatestEndAsking(t.place.due, t.detector.errorCount, n - 1, p);
      }
      events, t := LiveOn(s, events, t, n, t.now + QuietAfterTrigger(p), until, since, p);
    } else {
      events, t := LiveOnDevice(s, events, t, until, since, p);
    }
  }

  /** A triggered host goes on with checks until it is reset, by its device or by software. */
  lemma {:induction false} Die(s: Process, events: seq<Event>, t: Process, since: int, p: Params)
    returns (longer: seq<Event>, u: Process)
    requires Admissible(p) && HostRun(s, events, t, since, p) && Running(t, p) && t.wd.status == Dog.Triggered
    requires t.place.Waiting? && t.now <= t.place.due
    ensures HostRun(s, longer, u, since, p) && u.Dead() && !u.stopped && u.wd.device.Running?
    decreases t.wd.Deadline() - t.place.due
  {
    if t.wd.Deadline() <= t.place.due {
      longer, u := Then(s, events, t, Tick(t.wd.Deadline()), since, p);
    } else {
      Scale(0, p.batches, p.BatchTime());
      longer, u := Check(s, events, t, t.place.due, since, p);
      if !u.reset {
        longer, u := Die(s, longer, u, since, p);
      }
    }
  }

  /** The host is detected, reset, and time goes on. */
  lemma LifeAndDeath(until: int, p: Params) returns (s: Process, events: seq<Event>, t: Process)
    requires Admissible(p)
    ensures StartsAt(s, 0, p) && HostRun(s, events, t, 0, p)
    ensures t.now >= until && t.Dead() && !t.stopped && t.wd.device.Running?
  {
    s, events, t := LongestDetection(0, p);
    events, t := Die(s, events, t, 0, p);
    events, t := Then(s, events, t, Tick(Max(t.now, until)), 0, p);
  }

  /** A shutdown of the pod closes the device, and the host lives on. */
  lemma LifeAfterShutdown(until: int, p: Params) returns (s: Process, events: seq<Event>, t: Process)
    requires p.Valid() && until >= 0
    ensures StartsAt(s, 0, p) && HostRun(s, events, t, 0, p)
    ensures t.now == until && t.stopped && t.wd.device.Closed? && !t.reset
  {
    s := NewAgent(0, p);
    NewAgentReaches(0, [], s, 0, p);
    events, t := Then(s, [], s, Shutdown(true), 0, p);
    events, t := Then(s, events, t, Tick(until), 0, p);
  }
}
