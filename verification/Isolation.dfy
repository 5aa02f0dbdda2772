/**
 The agent process in time: the check loop with its API call and its batches of peer queries, the watchdog feeding, and
 the deadlines by which the next thing has to happen. How long may an isolated worker take to call the rebooter?
 */
module Isolation {
  import opened Basics
  import opened Batches
  import opened ApiCheck
  import opened Calculator
  import opened Rebooter
  import Dog = Watchdog

  /**
   The configuration, the device's timeout, the lengths the agent's peer list may have, the most batches a query round
   takes, and whether a software reboot works on the host.
   */
  datatype Params = Params(cfg: Config, watchdogTimeout: int, lists: set<nat>, batches: nat, software: bool) {
    /** The longest from the start of a check to the start of the next, peers aside. */
    function Turn(): int {
      cfg.apiCheckInterval + cfg.apiServerTimeout
    }

    function BatchTime(): int {
      cfg.peerDialTimeout + cfg.peerRequestTimeout
    }

    function Threshold(): int {
      cfg.maxApiErrorThreshold
    }

    predicate Valid() {
      && cfg.apiCheckInterval > 0 && cfg.apiServerTimeout >= 0 && cfg.maxApiErrorThreshold >= 1
      && cfg.peerDialTimeout >= 0 && cfg.peerRequestTimeout >= 0 && watchdogTimeout > 0
    }
  }

  const SILENCE := MAX_TIME_FOR_NO_PEERS_RESPONSE

  /** Where the check loop is, and by when it moves on: a wait ends then, a call or a batch at the latest then. */
  datatype Place =
    | Waiting(due: int)
    | Calling(due: int)
    | Asking(due: int, total: int, remaining: int, apiErrors: nat)

  /** The agent's process on the host: `stopped` once its pod was shut down, `reset` by a software reboot. */
  datatype Process = Process(now: int, detector: Detector, place: Place, wd: Dog.Wd, stopped: bool, reset: bool) {
    /** The host was reset, by its device or by software. */
    predicate Dead() {
      reset || wd.Expired(now)
    }

    /** The agent gets to do something. */
    predicate Acts() {
      !Dead() && !stopped
    }
  }

  datatype Event =
    | CheckStarts
    | ApiAnswers(ok: bool, peers: nat)
    | BatchAnswers(replies: seq<int>)
    | Feeds(ok: bool)
    | AgentReboots       // the agent's reconcile calls the rebooter
    | Shutdown(ok: bool) // the agent's pod is stopped, and the device closed if that succeeds
    | Tick(to: int)

  datatype BatchResult =
    | Continue(detector: Detector, remaining: int, apiErrors: nat)
    | Conclude(detector: Detector, response: Response)

  /** The replies of one batch, and the verdict if they or the end of the list call for one. */
  function AfterBatch(d: Detector, total: int, remaining: int, apiErrors: nat, replies: seq<int>,
                      now: int): BatchResult {
    var last := if Answered(replies) then now else d.lastPeerResponse;
    var left := remaining - GetNextBatchSize(total, remaining);
    if Decides(apiErrors, total, replies) then
      Conclude(Detector(if HEALTHY in replies then 0 else d.errorCount, last), Decision(replies))
    else if left > 0 then Continue(d.(lastPeerResponse := last), left, apiErrors + ApiErrors(replies))
    else Conclude(d.(lastPeerResponse := last),
                  if now > last + SILENCE then Response(false, UnhealthyBecauseNodeIsIsolated)
                  else Response(true, HealthyBecauseNoPeersResponseNotReachedTimeout))
  }

  predicate Enabled(s: Process, e: Event) {
    match e
    case Tick(to) => s.now <= to && (to <= s.place.due || !s.Acts())
    case CheckStarts => s.Acts() && s.place.Waiting? && s.now == s.place.due
    case ApiAnswers(_, _) => s.Acts() && s.place.Calling?
    case BatchAnswers(replies) =>
      s.Acts() && s.place.Asking? && |replies| == GetNextBatchSize(s.place.total, s.place.remaining)
    case _ => s.Acts()
  }

  function CallRebooter(s: Process, p: Params): Process {
    var effect := RebootCall(s.wd.status, s.wd.status, s.wd, s.now);
    s.(wd := effect.wd, reset := s.reset || (p.software && effect.hook))
  }

  function Next(s: Process, e: Event, p: Params): Process {
    var wait := Waiting(s.now + p.cfg.apiCheckInterval);
    match e
    case Tick(to) => s.(now := to)
    case Feeds(ok) => s.(wd := Dog.Step(s.wd, Dog.Feed(ok, s.now)))
    case AgentReboots => CallRebooter(s, p)
    case Shutdown(ok) => s.(wd := Dog.Step(s.wd, Dog.Shutdown(ok)), stopped := true)
    case CheckStarts => s.(place := Calling(s.now + p.cfg.apiServerTimeout))
    case ApiAnswers(ok, peers) =>
      var d := s.detector.(errorCount := if ok then 0 else s.detector.errorCount + 1);
      if ok || d.errorCount < p.Threshold() || peers == 0 then s.(detector := d, place := wait)
      else s.(detector := d, place := Asking(s.now + p.BatchTime(), peers, peers, 0))
    case BatchAnswers(replies) =>
      if !s.place.Asking? then s else
      match AfterBatch(s.detector, s.place.total, s.place.remaining, s.place.apiErrors, replies, s.now)
      case Continue(d, left, errors) =>
        s.(detector := d, place := Asking(s.now + p.BatchTime(), s.place.total, left, errors))
      case Conclude(d, r) =>
        var t := s.(detector := d, place := wait);
        if r.isHealthy then t else CallRebooter(t, p)
  }

  /** This step ends a check with the verdict unhealthy, so the check loop calls the rebooter. */
  predicate CheckReboots(s: Process, e: Event) {
    && e.BatchAnswers? && s.place.Asking?
    && var r := AfterBatch(s.detector, s.place.total, s.place.remaining, s.place.apiErrors, e.replies, s.now);
       r.Conclude? && !r.response.isHealthy
  }

  ghost predicate Reaches(s: Process, events: seq<Event>, t: Process, p: Params)
    decreases |events|
  {
    if events == [] then s == t
    else Enabled(s, events[0]) && Reaches(Next(s, events[0], p), events[1..], t, p)
  }

  // ---------- the events of a round are the query loop ----------

  /** The events of a query round, from batch `k` on, played one after the other. */
  function PlayRound(d: Detector, total: int, remaining: int, apiErrors: nat, net: Network,
                     k: nat): Option<(Detector, Response)>
    requires |net.replies| == |net.clock| && k <= |net.replies|
    decreases |net.replies| - k
  {
    if k == |net.replies| then None
    else
      match AfterBatch(d, total, remaining, apiErrors, net.replies[k], net.clock[k])
      case Conclude(d', r) => Some((d', r))
      case Continue(d', left, errors) => PlayRound(d', total, left, errors, net, k + 1)
  }

  /**
   Playing a round event by event gives exactly the detector and the response of the query loop, if the clock is read
   once after each batch.
   */
  lemma RoundIsQuery(d: Detector, threshold: int, peers: seq<PodIp>, net: Network)
    requires peers != [] && d.errorCount + 1 >= threshold
    requires |net.replies| == |net.clock| == BatchesLeft(|peers|, |peers|) && net.end == net.clock[|net.clock| - 1]
    ensures PlayRound(d.(errorCount := d.errorCount + 1), |peers|, |peers|, 0, net, 0)
            == Some(AfterFailedCheck(d, threshold, SILENCE, peers, net))
  {
    RoundIsQueryFrom(d, threshold, peers, net, |peers|, 0);
  }

  lemma {:induction false} RoundIsQueryFrom(d: Detector, threshold: int, peers: seq<PodIp>, net: Network,
                                            remaining: int, k: nat)
    requires peers != [] && d.errorCount + 1 >= threshold
    requires |net.replies| == |net.clock| > 0 && net.end == net.clock[|net.clock| - 1]
    requires k < |net.replies| && remaining > 0 && BatchesLeft(|peers|, remaining) == |net.replies| - k
    requires FirstDeciding(net.replies, |peers|, 0) == FirstDeciding(net.replies, |peers|, k)
    ensures PlayRound(Detector(d.errorCount + 1, LastAnswer(net.replies, net.clock, k, d.lastPeerResponse)),
                      |peers|, remaining, ApiErrorsBefore(net.replies, k), net, k)
            == Some(AfterFailedCheck(d, threshold, SILENCE, peers, net))
    decreases |net.replies| - k
  {
    var total := |peers|;
    RoundStep(net.replies, total, k);
    var left := remaining - GetNextBatchSize(total, remaining);
    if !DecidesAt(net.replies, total, k) {
      if left > 0 {
        RoundIsQueryFrom(d, threshold, peers, net, left, k + 1);
      } else {
        RoundEnds(net.replies, total, k + 1);
      }
    }
  }

  // ---------- the error counter ----------

  /** Failed API calls since the last success or Healthy answer, recounted from the events alone. */
  ghost function FailureStreak(events: seq<Event>, before: int): int {
    if events == [] then before
    else
      var n := |events| - 1;
      match events[n]
      case ApiAnswers(ok, _) => if ok then 0 else FailureStreak(events[..n], before) + 1
      case BatchAnswers(replies) => if HEALTHY in replies then 0 else FailureStreak(events[..n], before)
      case _ => FailureStreak(events[..n], before)
  }

  lemma {:induction false} StreakCons(e: Event, events: seq<Event>, before: int)
    ensures FailureStreak([e] + events, before) == FailureStreak(events, FailureStreak([e], before))
    decreases |events|
  {
    if events == [] {
      assert [e] + events == [e];
    } else {
      var n := |events| - 1;
      StreakCons(e, events[..n], before);
      assert ([e] + events)[..n + 1] == [e] + events[..n];
    }
  }

  lemma StreakStep(s: Process, e: Event, p: Params)
    requires Enabled(s, e)
    ensures Next(s, e, p).detector.errorCount == FailureStreak([e], s.detector.errorCount)
  {
    assert [e][..0] == [];
  }

  /**
   In every run of the loop the error counter is the number of failures since the last API success or Healthy answer.
   */
  lemma {:induction false} CounterIsStreak(s: Process, events: seq<Event>, t: Process, p: Params)
    requires Reaches(s, events, t, p)
    ensures t.detector.errorCount == FailureStreak(events, s.detector.errorCount)
    decreases |events|
  {
    if events == [] {
    } else {
      StreakStep(s, events[0], p);
      CounterIsStreak(Next(s, events[0], p), events[1..], t, p);
      StreakCons(events[0], events[1..], s.detector.errorCount);
      assert events == [events[0]] + events[1..];
    }
  }

  /** When a peer last answered, recounted from the events and their times alone. */
  ghost function LastAnswered(now: int, events: seq<Event>, before: int): int
    decreases |events|
  {
    if events == [] then before
    else
      match events[0]
      case Tick(to) => LastAnswered(to, events[1..], before)
      case BatchAnswers(replies) => LastAnswered(now, events[1..], if Answered(replies) then now else before)
      case _ => LastAnswered(now, events[1..], before)
  }

  lemma {:induction false} ResponseIsLastAnswer(s: Process, events: seq<Event>, t: Process, p: Params)
    requires Reaches(s, events, t, p)
    ensures t.detector.lastPeerResponse == LastAnswered(s.now, events, s.detector.lastPeerResponse)
    decreases |events|
  {
    if events == [] {
    } else {
      ResponseIsLastAnswer(Next(s, events[0], p), events[1..], t, p);
    }
  }

  /**
   In every run, the check loop calls the rebooter only after a streak of failures as long as the threshold, and only
   on an Unhealthy answer without a Healthy one, or when no peer has answered for longer than the silence limit.
   */
  lemma RebootsOnlyWithReason(s: Process, events: seq<Event>, t: Process, e: Event, p: Params)
    requires p.Valid() && OnTime(s, p) && Reaches(s, events, t, p) && CheckReboots(t, e)
    requires forall i :: 0 <= i < |events| ==> WithinBatches(events[i], p)
    ensures FailureStreak(events, s.detector.errorCount) >= p.Threshold()
    ensures HEALTHY !in e.replies
    ensures UNHEALTHY in e.replies || t.now > LastAnswered(s.now, events, s.detector.lastPeerResponse) + SILENCE
  {
    CounterIsStreak(s, events, t, p);
    ResponseIsLastAnswer(s, events, t, p);
    OnTimeThroughout(s, events, t, p);
  }

  lemma {:induction false} OnTimeThroughout(s: Process, events: seq<Event>, t: Process, p: Params)
    requires p.Valid() && OnTime(s, p) && Reaches(s, events, t, p)
    requires forall i :: 0 <= i < |events| ==> WithinBatches(events[i], p)
    ensures OnTime(t, p)
    decreases |events|
  {
    if events == [] {
    } else {
      assert WithinBatches(events[0], p);
      StaysOnTime(s, events[0], p);
      OnTimeThroughout(Next(s, events[0], p), events[1..], t, p);
    }
  }

  // ---------- what holds all the time ----------

  /**
   A wait, a call and a batch end in time. A peer's last answer came before the current wait, or before the call and the
   wait in front of it; or the agent is new and its first check goes on, since a new agent counts as answered.
   */
  predicate PlaceOk(s: Process, p: Params) {
    var last := s.detector.lastPeerResponse;
    match s.place
    case Waiting(due) =>
      && due <= s.now + p.cfg.apiCheckInterval
      && (last <= due - p.cfg.apiCheckInterval || (s.detector.errorCount == 0 && last <= due <= s.now))
    case Calling(due) =>
      && due <= s.now + p.cfg.apiServerTimeout
      && (last <= due - p.Turn() || (s.detector.errorCount == 0 && last <= due - p.cfg.apiServerTimeout))
    case Asking(due, total, remaining, errors) =>
      && due <= s.now + p.BatchTime()
      && 0 < remaining <= total && 2 * errors <= total
      && s.detector.errorCount >= p.Threshold()
      && (if remaining < total then BatchesLeft(total, remaining) < p.batches
          else
            && BatchesLeft(total, remaining) <= p.batches
            && (last <= due - p.BatchTime() - p.cfg.apiCheckInterval ||
                (p.Threshold() == 1 && last <= due - p.BatchTime())))
  }

  /** The loop does everything by the time it is due, as long as it runs. */
  predicate OnTime(s: Process, p: Params) {
    && (s.Acts() ==> s.now <= s.place.due)
    && s.detector.errorCount >= 0 && s.detector.lastPeerResponse <= s.now
    && PlaceOk(s, p)
  }

  /** The device is counting, fed by an armed watchdog or left alone by a triggered one. */
  predicate Guarded(s: Process, p: Params) {
    && s.wd.status in {Dog.Armed, Dog.Triggered} && s.wd.stopBound && !s.wd.crashed
    && s.wd.device.Running? && s.wd.device.fed <= s.now && s.wd.timeout == p.watchdogTimeout
    && (s.wd.lastFood.Some? ==> s.wd.lastFood.value <= s.now)
  }

  /** An armed or triggered worker whose loop is on time. */
  predicate Alive(s: Process, p: Params) {
    OnTime(s, p) && Guarded(s, p)
  }

  /** The shutdown of the pod disarms an armed watchdog if the device agrees. */
  predicate Disarms(s: Process, e: Event) {
    e.Shutdown? && e.ok && s.wd.status == Dog.Armed
  }

  /** The peer list has a length that it may have, and takes no more batches than the parameters say. */
  predicate WithinBatches(e: Event, p: Params) {
    e.ApiAnswers? ==> e.peers in p.lists && BatchesLeft(e.peers, e.peers) <= p.batches
  }

  lemma StaysAlive(s: Process, e: Event, p: Params)
    requires p.Valid() && Alive(s, p) && Enabled(s, e) && WithinBatches(e, p) && !Disarms(s, e)
    ensures Alive(Next(s, e, p), p)
  {
    StaysOnTime(s, e, p);
  }

  lemma StaysOnTime(s: Process, e: Event, p: Params)
    requires p.Valid() && OnTime(s, p) && Enabled(s, e) && WithinBatches(e, p)
    ensures OnTime(Next(s, e, p), p)
  {
  }

  /**
   Whenever the check loop or the agent's reconcile calls the rebooter, an armed watchdog is triggered with its deadline
   unchanged; on a triggered one a software reboot follows, if it works and the last feed is more than 30s ago.
   */
  lemma CallTakesEffect(s: Process, e: Event, p: Params)
    requires Guarded(s, p) && Enabled(s, e) && (CheckReboots(s, e) || e.AgentReboots?)
    ensures var t := Next(s, e, p);
            && t.wd == s.wd.(status := Dog.Triggered)
            && (t.reset <==> && p.software && s.wd.status == Dog.Triggered
                             && (s.wd.lastFood.Some? ==> s.now > s.wd.lastFood.value + 30 * SECOND))
  {
  }

  /** An agent that starts now: its watchdog gets armed and fed, and its first check is due at once. */
  function NewAgent(now: int, p: Params): Process {
    var wd := Dog.Wd(Dog.Armed, p.watchdogTimeout, Some(now), true, Dog.Running(now), false);
    Process(now, Detector(0, now), Waiting(now), wd, false, false)
  }

  /** An agent that started at some time can be in this state. */
  ghost predicate Arises(s: Process, p: Params) {
    exists start: int, events: seq<Event> :: ArisesFrom(start, events, s, p)
  }

  ghost predicate ArisesFrom(start: int, events: seq<Event>, s: Process, p: Params) {
    Reaches(NewAgent(start, p), events, s, p) && forall i :: 0 <= i < |events| ==> WithinBatches(events[i], p)
  }

  /** In every state an agent can get into, its loop is on time. */
  lemma ArisesOnTime(s: Process, p: Params)
    requires p.Valid() && Arises(s, p)
    ensures OnTime(s, p)
  {
    var start: int, events: seq<Event> :| ArisesFrom(start, events, s, p);
    OnTimeThroughout(NewAgent(start, p), events, s, p);
  }

  // ---------- the detection bound ----------

  /** A whole round of peer queries. */
  function RoundTime(p: Params): int {
    p.batches * p.BatchTime()
  }

  /** The longest from the end of a check to the end of the next, peers included. */
  function Cycle(p: Params): int {
    p.Turn() + RoundTime(p)
  }

  /** The most waits that end within the silence limit. */
  function WaitsInSilence(p: Params): int
    requires p.Valid()
  {
    SILENCE / p.cfg.apiCheckInterval
  }

  /** After an answer in the first batch of a round, the latest end of a check whose wait began within the limit. */
  function TailEnd(p: Params): int
    requires p.Valid()
  {
    Max(p.batches - 1, 0) * p.BatchTime() + WaitsInSilence(p) * Cycle(p)
  }

  /** The same after the start of an agent, whose checks ask peers only from the threshold on. */
  function NewAgentEnd(p: Params): int
    requires p.Valid()
  {
    var further := WaitsInSilence(p) - (p.Threshold() - 1);
    if further < 0 then 0
    else p.cfg.apiServerTimeout + (p.Threshold() - 1) * p.Turn() + RoundTime(p) + further * Cycle(p)
  }

  /** The latest end of a check, counted from the last answer, that has to be taken for healthy. */
  function LastQuietEnd(p: Params): int
    requires p.Valid()
  {
    Min(SILENCE, Max(TailEnd(p), NewAgentEnd(p)))
  }

  /** The detection bound: the threshold and one round, or a last quiet check and one more. */
  function DetectionBound(p: Params): int
    requires p.Valid()
  {
    Max(p.Threshold() * p.Turn() + RoundTime(p), LastQuietEnd(p) + Cycle(p))
  }

  /** Failed checks still needed before peers are asked. */
  function Needed(s: Process, p: Params): int {
    Max(1, p.Threshold() - s.detector.errorCount)
  }

  /** The end of the next round of queries, at the earliest. */
  function RoundEndsFrom(s: Process, p: Params): int {
    match s.place
    case Waiting(due) => due + (Needed(s, p) - 1) * p.cfg.apiCheckInterval
    case Calling(_) => s.now + (Needed(s, p) - 1) * p.cfg.apiCheckInterval
    case Asking(_, _, _, _) => s.now
  }

  /** The end of the next round of queries, at the latest. */
  function RoundEndsBy(s: Process, p: Params): int {
    match s.place
    case Waiting(due) => due + p.cfg.apiServerTimeout + (Needed(s, p) - 1) * p.Turn() + RoundTime(p)
    case Calling(due) => due + (Needed(s, p) - 1) * p.Turn() + RoundTime(p)
    case Asking(due, total, remaining, _) =>
      due + BatchesLeft(total, remaining - GetNextBatchSize(total, remaining)) * p.BatchTime()
  }

  /** Rounds that may still end by `limit` after one that ends at `lo`. */
  function FurtherRounds(lo: int, limit: int, p: Params): int
    requires p.Valid()
  {
    (limit - lo) / p.cfg.apiCheckInterval
  }

  /**
   When the next round ends between `lo` and `hi` and others follow: the latest end of the first round that ends after
   `limit`.
   */
  function FirstEndAfter(lo: int, hi: int, limit: int, p: Params): int
    requires p.Valid()
  {
    if lo > limit then hi
    else Max(hi, Min(limit, hi + FurtherRounds(lo, limit, p) * Cycle(p)) + Cycle(p))
  }

  function EndAfter(s: Process, limit: int, p: Params): int
    requires p.Valid()
  {
    FirstEndAfter(RoundEndsFrom(s, p), RoundEndsBy(s, p), limit, p)
  }

  /** If no peer answers any more, the latest time of the next call of the rebooter. */
  function LatestReboot(s: Process, p: Params): int
    requires p.Valid()
  {
    EndAfter(s, s.detector.lastPeerResponse + SILENCE, p)
  }

  lemma Scale(a: int, b: int, x: int)
    requires a <= b && x >= 0
    ensures a * x <= b * x
  {
  }

  lemma Distribute(a: int, x: int)
    ensures (a + 1) * x == a * x + x
  {
  }

  lemma Positive(p: Params)
    requires p.Valid()
    ensures RoundTime(p) >= 0 && Cycle(p) >= p.Turn() >= p.cfg.apiCheckInterval > 0 && WaitsInSilence(p) >= 0
    ensures DetectionBound(p) >= Cycle(p) && LastQuietEnd(p) >= 0
  {
    Scale(0, p.batches, p.BatchTime());
    Scale(0, Max(p.batches - 1, 0), p.BatchTime());
    Scale(0, WaitsInSilence(p), Cycle(p));
  }

  lemma DivMonotone(a: int, b: int, x: int)
    requires a <= b && x > 0
    ensures a / x <= b / x
  {
    if a / x > b / x {
      Scale(b / x + 1, a / x, x);
    }
  }

  lemma DivStep(a: int, x: int)
    requires x > 0
    ensures (a - x) / x == a / x - 1
  {
    var q := a / x;
    assert a - x == (q - 1) * x + a % x;
    DivUnique(a - x, x, q - 1, a % x);
  }

  lemma DivUnique(a: int, x: int, q: int, rest: int)
    requires x > 0 && a == q * x + rest && 0 <= rest < x
    ensures a / x == q
  {
    if a / x < q {
      Scale(a / x + 1, q, x);
    } else if a / x > q {
      Scale(q + 1, a / x, x);
    }
  }

  /** A later earliest end and an earlier latest end do not push the first end after the limit back. */
  lemma NarrowerIsEarlier(lo: int, hi: int, lo': int, hi': int, limit: int, p: Params)
    requires p.Valid() && lo <= lo' && hi' <= hi
    ensures FirstEndAfter(lo', hi', limit, p) <= FirstEndAfter(lo, hi, limit, p)
  {
    Positive(p);
    if lo' <= limit {
      DivMonotone(limit - lo', limit - lo, p.cfg.apiCheckInterval);
      Scale(FurtherRounds(lo', limit, p), FurtherRounds(lo, limit, p), Cycle(p));
    }
  }

  /** Nor does a round that ends in time, with a whole cycle to follow. */
  lemma NextCycle(end: int, hi: int, limit: int, p: Params)
    requires p.Valid() && end <= hi && end <= limit
    ensures FirstEndAfter(end + p.cfg.apiCheckInterval, end + Cycle(p), limit, p) <= FirstEndAfter(end, hi, limit, p)
  {
    Positive(p);
    var i, n := p.cfg.apiCheckInterval, FurtherRounds(end, limit, p);
    DivMonotone(0, limit - end, i);
    Scale(0, n, Cycle(p));
    if end + i <= limit {
      DivStep(limit - end, i);
      Distribute(n - 1, Cycle(p));
    }
  }

  /** The first end after the limit, from what is known of the last answer and of the next round's end. */
  lemma FirstEndBounded(lo: int, hi: int, last: int, now: int, k: int, x: int, p: Params)
    requires p.Valid() && last <= now && k >= 0 && lo >= last + k * p.cfg.apiCheckInterval
    requires k <= WaitsInSilence(p) ==> hi + (WaitsInSilence(p) - k) * Cycle(p) <= now + x
    ensures FirstEndAfter(lo, hi, last + SILENCE, p) <= Max(hi, now + Min(SILENCE, x) + Cycle(p))
  {
    var i, n := p.cfg.apiCheckInterval, WaitsInSilence(p);
    if lo <= last + SILENCE {
      var further := FurtherRounds(lo, last + SILENCE, p);
      DivMonotone(last + SILENCE - lo, SILENCE - k * i, i);
      LessWaits(k, p);
      Positive(p);
      DivMonotone(0, SILENCE - k * i, i);
      Scale(further, n - k, Cycle(p));
    }
  }

  lemma {:induction false} LessWaits(k: int, p: Params)
    requires p.Valid() && k >= 0
    ensures (SILENCE - k * p.cfg.apiCheckInterval) / p.cfg.apiCheckInterval == WaitsInSilence(p) - k
    decreases k
  {
    if k == 0 {
    } else {
      LessWaits(k - 1, p);
      Distribute(k - 1, p.cfg.apiCheckInterval);
      DivStep(SILENCE - (k - 1) * p.cfg.apiCheckInterval, p.cfg.apiCheckInterval);
    }
  }

  /** The end of the next round, for the five kinds of places, against the bound. */
  lemma RoundEndsInBound(s: Process, p: Params)
    requires p.Valid() && OnTime(s, p)
    ensures RoundEndsBy(s, p) <= s.now + DetectionBound(p)
  {
    Positive(p);
    match s.place {
      case Asking(_, total, remaining, _) =>
        var left := BatchesLeft(total, remaining - GetNextBatchSize(total, remaining));
        Scale(left + 1, p.batches, p.BatchTime());
        Distribute(left, p.BatchTime());
      case _ =>
        Scale(Needed(s, p) - 1, p.Threshold() - 1, p.Turn());
        Distribute(p.Threshold() - 1, p.Turn());
    }
  }

  lemma CyclesAfterTurns(m: int, p: Params)
    requires p.Valid() && 1 <= m <= WaitsInSilence(p)
    ensures m * p.Turn() + RoundTime(p) + (WaitsInSilence(p) - m) * Cycle(p) <= TailEnd(p)
  {
    var n := WaitsInSilence(p);
    Positive(p);
    Scale(0, Max(p.batches - 1, 0), p.BatchTime());
    Scale(1, m, RoundTime(p));
    assert n * Cycle(p) == (n - m) * Cycle(p) + m * Cycle(p);
    assert m * Cycle(p) == m * p.Turn() + m * RoundTime(p);
  }

  lemma BoundWhileWaiting(s: Process, p: Params)
    requires p.Valid() && OnTime(s, p) && !s.place.Asking?
    ensures LatestReboot(s, p) <= s.now + DetectionBound(p)
  {
    var m, i, n, last := Needed(s, p), p.cfg.apiCheckInterval, WaitsInSilence(p), s.detector.lastPeerResponse;
    var lo, hi := RoundEndsFrom(s, p), RoundEndsBy(s, p);
    RoundEndsInBound(s, p);
    Distribute(m - 1, i);
    Distribute(m - 1, p.Turn());
    if lo >= last + m * i {
      if m <= n {
        CyclesAfterTurns(m, p);
      }
      FirstEndBounded(lo, hi, last, s.now, m, TailEnd(p), p);
    } else {
      FirstEndBounded(lo, hi, last, s.now, m - 1, NewAgentEnd(p), p);
    }
  }

  /** A round, and the cycles that may follow it if it came after a wait, or if it is the first of a new agent. */
  lemma CyclesAfterRound(p: Params)
    requires p.Valid()
    ensures RoundTime(p) + (WaitsInSilence(p) - 1) * Cycle(p) <= TailEnd(p)
    ensures p.Threshold() == 1 ==> RoundTime(p) + WaitsInSilence(p) * Cycle(p) <= NewAgentEnd(p)
  {
    Positive(p);
    Distribute(WaitsInSilence(p) - 1, Cycle(p));
    Scale(0, Max(p.batches - 1, 0), p.BatchTime());
  }

  lemma BoundInFirstBatch(s: Process, p: Params)
    requires p.Valid() && OnTime(s, p) && s.place.Asking? && s.place.remaining == s.place.total
    ensures LatestReboot(s, p) <= s.now + DetectionBound(p)
  {
    var last, hi := s.detector.lastPeerResponse, RoundEndsBy(s, p);
    RoundEndsInBound(s, p);
    RoundOfBatches(s, p.batches, p);
    CyclesAfterRound(p);
    if s.now >= last + p.cfg.apiCheckInterval {
      FirstEndBounded(s.now, hi, last, s.now, 1, TailEnd(p), p);
    } else {
      assert p.Threshold() == 1;
      FirstEndBounded(s.now, hi, last, s.now, 0, NewAgentEnd(p), p);
    }
  }

  lemma BoundInLaterBatch(s: Process, p: Params)
    requires p.Valid() && OnTime(s, p) && s.place.Asking? && s.place.remaining < s.place.total
    ensures LatestReboot(s, p) <= s.now + DetectionBound(p)
  {
    RoundEndsInBound(s, p);
    RoundOfBatches(s, p.batches - 1, p);
    FirstEndBounded(s.now, RoundEndsBy(s, p), s.detector.lastPeerResponse, s.now, 0, TailEnd(p), p);
  }

  lemma RoundOfBatches(s: Process, batches: nat, p: Params)
    requires p.Valid() && OnTime(s, p) && s.place.Asking? && BatchesLeft(s.place.total, s.place.remaining) <= batches
    ensures RoundEndsBy(s, p) <= s.now + batches * p.BatchTime()
  {
    var left := BatchesLeft(s.place.total, s.place.remaining - GetNextBatchSize(s.place.total, s.place.remaining));
    Distribute(left, p.BatchTime());
    Scale(left + 1, batches, p.BatchTime());
  }

  /** At any time the rebooter would be called within the bound, should the isolation begin now. */
  lemma BoundFromNow(s: Process, p: Params)
    requires p.Valid() && OnTime(s, p)
    ensures LatestReboot(s, p) <= s.now + DetectionBound(p)
  {
    if !s.place.Asking? {
      BoundWhileWaiting(s, p);
    } else if s.place.remaining < s.place.total {
      BoundInLaterBatch(s, p);
    } else {
      BoundInFirstBatch(s, p);
    }
  }

  /** No API success, and no answer of a listed peer. */
  predicate Isolating(e: Event, p: Params) {
    match e
    case ApiAnswers(ok, peers) => !ok && peers >= 1
    case BatchAnswers(replies) => !Answered(replies)
    case _ => true
  }

  lemma SilentBatch(replies: seq<int>)
    requires !Answered(replies)
    ensures ApiErrors(replies) == 0
  {
    assert API_ERROR in replies <==> API_ERROR in multiset(replies);
  }

  /** This batch is the last one of its round. */
  predicate EndsRound(s: Process, e: Event) {
    && e.BatchAnswers? && s.place.Asking?
    && s.place.remaining <= GetNextBatchSize(s.place.total, s.place.remaining)
  }

  lemma SilentBatchStep(s: Process, e: Event, limit: int, p: Params)
    requires p.Valid() && OnTime(s, p) && Enabled(s, e) && WithinBatches(e, p) && Isolating(e, p) && e.BatchAnswers?
    ensures CheckReboots(s, e) <==> EndsRound(s, e) && s.now > s.detector.lastPeerResponse + SILENCE
    ensures (EndsRound(s, e) && s.now > limit) || EndAfter(Next(s, e, p), limit, p) <= EndAfter(s, limit, p)
  {
    SilentBatch(e.replies);
    var total, remaining := s.place.total, s.place.remaining;
    var left := remaining - GetNextBatchSize(total, remaining);
    assert !Decides(s.place.apiErrors, total, e.replies);
    Scale(0, BatchesLeft(total, left), p.BatchTime());
    if left > 0 {
      Distribute(BatchesLeft(total, left - GetNextBatchSize(total, left)), p.BatchTime());
      NarrowerIsEarlier(s.now, RoundEndsBy(s, p), s.now, RoundEndsBy(Next(s, e, p), p), limit, p);
    } else if s.now <= limit {
      NextCycle(s.now, RoundEndsBy(s, p), limit, p);
    }
  }

  lemma FailedCallStep(s: Process, e: Event, limit: int, p: Params)
    requires p.Valid() && OnTime(s, p) && Enabled(s, e) && WithinBatches(e, p) && Isolating(e, p) && e.ApiAnswers?
    ensures EndAfter(Next(s, e, p), limit, p) <= EndAfter(s, limit, p)
  {
    var t := Next(s, e, p);
    if s.detector.errorCount + 1 < p.Threshold() {
      Distribute(Needed(s, p) - 2, p.Turn());
      Distribute(Needed(s, p) - 2, p.cfg.apiCheckInterval);
    } else {
      var n := e.peers;
      var left := BatchesLeft(n, n - GetNextBatchSize(n, n));
      Scale(left + 1, p.batches, p.BatchTime());
      Distribute(left, p.BatchTime());
    }
    NarrowerIsEarlier(RoundEndsFrom(s, p), RoundEndsBy(s, p), RoundEndsFrom(t, p), RoundEndsBy(t, p), limit, p);
  }

  /** While isolated, only a round that ends after the limit can push the first such end back. */
  lemma EndAfterKept(s: Process, e: Event, limit: int, p: Params)
    requires p.Valid() && OnTime(s, p) && Enabled(s, e) && WithinBatches(e, p) && Isolating(e, p)
    ensures CheckReboots(s, e) <==> EndsRound(s, e) && s.now > s.detector.lastPeerResponse + SILENCE
    ensures (EndsRound(s, e) && s.now > limit) || EndAfter(Next(s, e, p), limit, p) <= EndAfter(s, limit, p)
  {
    match e {
      case ApiAnswers(_, _) => FailedCallStep(s, e, limit, p);
      case BatchAnswers(_) => SilentBatchStep(s, e, limit, p);
      case _ =>
        var t := Next(s, e, p);
        NarrowerIsEarlier(RoundEndsFrom(s, p), RoundEndsBy(s, p), RoundEndsFrom(t, p), RoundEndsBy(t, p), limit, p);
    }
  }

  lemma DueBeforeRoundEnds(s: Process, p: Params)
    requires p.Valid() && OnTime(s, p)
    ensures s.place.due <= RoundEndsBy(s, p)
  {
    Scale(0, Needed(s, p) - 1, p.Turn());
    Scale(0, p.batches, p.BatchTime());
    if s.place.Asking? {
      var left := s.place.remaining - GetNextBatchSize(s.place.total, s.place.remaining);
      Scale(0, BatchesLeft(s.place.total, left), p.BatchTime());
    }
  }

  lemma DueBeforeLatest(s: Process, p: Params)
    requires p.Valid() && OnTime(s, p)
    ensures s.place.due <= LatestReboot(s, p)
  {
    DueBeforeRoundEnds(s, p);
  }

  /** While isolated, a step either calls the rebooter in time, or does not push the latest time of the call back. */
  lemma IsolatedStep(s: Process, e: Event, p: Params)
    requires p.Valid() && OnTime(s, p) && Enabled(s, e) && WithinBatches(e, p) && Isolating(e, p)
    ensures CheckReboots(s, e) || LatestReboot(Next(s, e, p), p) <= LatestReboot(s, p)
    ensures CheckReboots(s, e) ==> s.now <= LatestReboot(s, p)
  {
    EndAfterKept(s, e, s.detector.lastPeerResponse + SILENCE, p);
    DueBeforeLatest(s, p);
  }

  /** From time `since` on the worker is isolated: everything that completes then brings neither success nor answer. */
  ghost predicate IsolatedSince(s: Process, events: seq<Event>, since: int, p: Params)
    decreases |events|
  {
    events == [] ||
    (&& WithinBatches(events[0], p)
     && (s.now >= since ==> Isolating(events[0], p))
     && IsolatedSince(Next(s, events[0], p), events[1..], since, p))
  }

  /** Some check of the run calls the rebooter between `from` and `until`. */
  ghost predicate RebootsBetween(s: Process, events: seq<Event>, from: int, until: int, p: Params)
    decreases |events|
  {
    events != [] &&
    (|| (CheckReboots(s, events[0]) && from <= s.now <= until)
     || RebootsBetween(Next(s, events[0], p), events[1..], from, until, p))
  }

  lemma LatestKept(s: Process, e: Event, since: int, p: Params)
    requires p.Valid() && OnTime(s, p) && Enabled(s, e) && WithinBatches(e, p) && (s.now >= since ==> Isolating(e, p))
    requires LatestReboot(s, p) <= since + DetectionBound(p)
    ensures || (CheckReboots(s, e) && since <= s.now <= since + DetectionBound(p))
            || LatestReboot(Next(s, e, p), p) <= since + DetectionBound(p)
  {
    StaysOnTime(s, e, p);
    if s.now >= since {
      IsolatedStep(s, e, p);
    } else if e.Tick? {
      IsolatedStep(s, e, p);
    } else {
      BoundFromNow(Next(s, e, p), p);
    }
  }

  lemma {:induction false} RebootsOrStillInTime(s: Process, events: seq<Event>, t: Process, since: int, p: Params)
    requires p.Valid() && OnTime(s, p) && Reaches(s, events, t, p) && IsolatedSince(s, events, since, p)
    requires LatestReboot(s, p) <= since + DetectionBound(p)
    ensures || RebootsBetween(s, events, since, since + DetectionBound(p), p)
            || (OnTime(t, p) && LatestReboot(t, p) <= since + DetectionBound(p))
    decreases |events|
  {
    if events == [] {
    } else {
      var e := events[0];
      StaysOnTime(s, e, p);
      LatestKept(s, e, since, p);
      if LatestReboot(Next(s, e, p), p) <= since + DetectionBound(p) {
        RebootsOrStillInTime(Next(s, e, p), events[1..], t, since, p);
      }
    }
  }

  /**
   Detection: a worker with listed peers that is isolated from time `since` on calls the rebooter from its check loop
   by `since` plus the bound, in every run that lasts that long, unless the device resets the host or its pod is shut
   down before.
   */
  lemma DetectedInTime(s: Process, events: seq<Event>, t: Process, since: int, p: Params)
    requires p.Valid() && OnTime(s, p) && s.now <= since
    requires Reaches(s, events, t, p) && IsolatedSince(s, events, since, p)
    requires t.now > since + DetectionBound(p)
    ensures RebootsBetween(s, events, since, since + DetectionBound(p), p) || t.Dead() || t.stopped
  {
    BoundFromNow(s, p);
    RebootsOrStillInTime(s, events, t, since, p);
    if !RebootsBetween(s, events, since, since + DetectionBound(p), p) {
      DueBeforeLatest(t, p);
    }
  }

  /**
   The bound against what the calculator reserves for detection and confirmation: it fits exactly when the shorter of
   a round and the silence limit fits into the turns the threshold adds and what the last quiet check leaves of the
   limit, and it never exceeds it by more than the buffer for rebooting.
   */
  lemma BoundAgainstReserve(p: Params)
    requires p.Valid()
    ensures var reserve := p.Threshold() * p.Turn() + Max(RoundTime(p), SILENCE);
            && (DetectionBound(p) <= reserve <==>
                Min(RoundTime(p), SILENCE) <= (p.Threshold() - 1) * p.Turn() + SILENCE - LastQuietEnd(p))
            && DetectionBound(p) <= reserve + REBOOT_BUFFER
  {
    var quiet := LastQuietEnd(p);
    assert quiet <= SILENCE;
    Distribute(p.Threshold() - 1, p.Turn());
    Scale(0, p.Threshold() - 1, p.Turn());
    Scale(0, p.batches, p.BatchTime());
  }

  // ---------- after the trigger ----------

  /** After the trigger, the latest end of a check that does not find the reboot stuck. */
  function QuietAfterTrigger(p: Params): int
    requires p.Valid()
  {
    Min(SILENCE, WaitsInSilence(p) * Cycle(p))
  }

  /** How long a host can run after the rebooter was called: until its device expires, or a software reboot works. */
  function LifeAfterTrigger(p: Params): int
    requires p.Valid()
  {
    if p.software then Min(p.watchdogTimeout, QuietAfterTrigger(p) + Cycle(p) + 1) else p.watchdogTimeout
  }

  /** The later of the last answer and the last feed: a silent check finds the reboot stuck 30s after that. */
  function LastSign(s: Process): int {
    match s.wd.lastFood
    case None => s.detector.lastPeerResponse
    case Some(fed) => Max(s.detector.lastPeerResponse, fed)
  }

  function LatestSoftwareReboot(s: Process, p: Params): int
    requires p.Valid()
  {
    EndAfter(s, LastSign(s) + SILENCE, p)
  }

  lemma SoftwareRebootFromNow(s: Process, bound: int, p: Params)
    requires p.Valid() && LastSign(s) <= RoundEndsFrom(s, p) && LastSign(s) <= bound && RoundEndsBy(s, p) <= bound
    ensures LatestSoftwareReboot(s, p) <= bound + QuietAfterTrigger(p) + Cycle(p)
  {
    Positive(p);
    Scale(0, WaitsInSilence(p), Cycle(p));
    FirstEndBounded(RoundEndsFrom(s, p), RoundEndsBy(s, p), LastSign(s), bound, 0, WaitsInSilence(p) * Cycle(p), p);
  }

  /** A check that has just ended leaves a whole cycle to the next. */
  lemma SoftwareRebootAfterCheck(s: Process, p: Params)
    requires p.Valid() && LastSign(s) <= s.now && s.place == Waiting(s.now + p.cfg.apiCheckInterval)
    requires s.detector.errorCount >= p.Threshold()
    ensures LatestSoftwareReboot(s, p) <= s.now + QuietAfterTrigger(p) + Cycle(p)
  {
    Positive(p);
    var n := WaitsInSilence(p);
    Distribute(n - 1, Cycle(p));
    Scale(0, n, Cycle(p));
    FirstEndBounded(RoundEndsFrom(s, p), RoundEndsBy(s, p), LastSign(s), s.now, 1, n * Cycle(p), p);
  }

  /** After the trigger an isolated step resets the host by software, or does not push that time back. */
  lemma TriggeredStep(s: Process, e: Event, p: Params)
    requires p.Valid() && Alive(s, p) && Enabled(s, e) && WithinBatches(e, p) && Isolating(e, p)
    requires s.wd.status == Dog.Triggered && p.software
    ensures Next(s, e, p).reset || LatestSoftwareReboot(Next(s, e, p), p) <= LatestSoftwareReboot(s, p)
  {
    EndAfterKept(s, e, LastSign(s) + SILENCE, p);
  }
}
