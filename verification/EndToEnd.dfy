/**
 The whole system: the remediation protocol and the agent process on the remediated host, on one clock. Replacement
 workloads must not start while the old host can still be running them.
 */
module EndToEnd {
  import opened Basics
  import opened Batches
  import opened Calculator
  import Dog = Watchdog
  import Rem = Remediation
  import Inv = RemediationInvariant
  import Runs = RemediationRuns
  import Iso = Isolation

  datatype World = World(server: Rem.Server, process: Iso.Process)

  /** Steps of the cluster and of the host; the host's clock tick is the clock tick of both. */
  datatype Event = Cluster(c: Runs.Event) | Host(h: Iso.Event)

  function ClusterOf(w: World): Runs.State {
    Runs.State(w.process.now, w.server)
  }

  predicate Enabled(w: World, e: Event) {
    match e
    case Cluster(c) => !c.Tick? && Runs.Enabled(ClusterOf(w), c)
    case Host(h) =>
      && Iso.Enabled(w.process, h)
      && (h.AgentReboots? ==>
            && w.server.present && !w.server.meta.deleted
            && Rem.GetPhase(w.server.status) == Rem.PreRebootCompletedPhase)
  }

  function Next(w: World, e: Event, strategy: Rem.Strategy, p: Iso.Params): World {
    match e
    case Cluster(c) => w.(server := Runs.Next(ClusterOf(w), c, strategy).server)
    case Host(h) => w.(process := Iso.Next(w.process, h, p))
  }

  ghost predicate Reaches(w: World, events: seq<Event>, v: World, strategy: Rem.Strategy, p: Iso.Params)
    decreases |events|
  {
    if events == [] then w == v
    else Enabled(w, events[0]) && Reaches(Next(w, events[0], strategy, p), events[1..], v, strategy, p)
  }

  /** From `since` on nothing that completes on the host brings an API success or an answer of a listed peer. */
  predicate StepIsolated(w: World, e: Event, since: int, p: Iso.Params) {
    e.Host? ==> Iso.WithinBatches(e.h, p) && (w.process.now >= since ==> Iso.Isolating(e.h, p))
  }

  ghost predicate Isolated(w: World, events: seq<Event>, since: int, strategy: Rem.Strategy, p: Iso.Params)
    decreases |events|
  {
    events == [] ||
    (StepIsolated(w, events[0], since, p) && Isolated(Next(w, events[0], strategy, p), events[1..], since, strategy, p))
  }

  // ---------- the host ----------

  /** By when, at the latest, a host that is isolated from `since` on is reset by software, if that works. */
  function SoftwareEnd(since: int, p: Iso.Params): int
    requires p.Valid()
  {
    since + Iso.DetectionBound(p) + Iso.QuietAfterTrigger(p) + Iso.Cycle(p)
  }

  /** The host is on its way to a reset: the rebooter will be called, or the host gets reset, by a known time. */
  predicate OnItsWay(s: Iso.Process, since: int, p: Iso.Params)
    requires p.Valid()
  {
    && Iso.Alive(s, p)
    && (s.wd.status == Dog.Armed && !s.stopped ==> Iso.LatestReboot(s, p) <= since + Iso.DetectionBound(p))
    && (s.wd.status == Dog.Triggered || s.stopped ==>
          s.wd.Deadline() <= since + Iso.DetectionBound(p) + p.watchdogTimeout)
    && (s.wd.status == Dog.Triggered && s.Acts() && p.software ==>
          Iso.LatestSoftwareReboot(s, p) <= SoftwareEnd(since, p))
  }

  /** The pod was shut down and its device closed. */
  predicate Unguarded(s: Iso.Process) {
    s.stopped && s.wd.device.Closed? && !s.reset
  }

  /** A triggered watchdog's host, at any time up to the bound. */
  lemma SoftwareEndFrom(s: Iso.Process, since: int, p: Iso.Params)
    requires p.Valid() && Iso.Alive(s, p) && s.Acts() && s.now <= since + Iso.DetectionBound(p)
    requires Iso.RoundEndsBy(s, p) <= since + Iso.DetectionBound(p)
    ensures Iso.LatestSoftwareReboot(s, p) <= SoftwareEnd(since, p)
  {
    Iso.Scale(0, Iso.Needed(s, p) - 1, p.cfg.apiCheckInterval);
    Iso.SoftwareRebootFromNow(s, since + Iso.DetectionBound(p), p);
  }

  lemma StartsOnItsWay(s: Iso.Process, since: int, p: Iso.Params)
    requires p.Valid() && Iso.Alive(s, p) && s.now <= since
    ensures OnItsWay(s, since, p)
  {
    Iso.Positive(p);
    Iso.BoundFromNow(s, p);
    Iso.RoundEndsInBound(s, p);
    if s.Acts() {
      SoftwareEndFrom(s, since, p);
    }
  }

  /** Every step keeps the host on its way, except for a shutdown that disarms; after that the device stays closed. */
  lemma HostStep(s: Iso.Process, e: Iso.Event, since: int, p: Iso.Params)
    requires p.Valid() && OnItsWay(s, since, p) && Iso.Enabled(s, e) && Iso.WithinBatches(e, p)
    requires s.now >= since ==> Iso.Isolating(e, p)
    ensures if Iso.Disarms(s, e) then Unguarded(Iso.Next(s, e, p)) else OnItsWay(Iso.Next(s, e, p), since, p)
  {
    if Iso.Disarms(s, e) {
    } else if s.stopped || s.wd.status == Dog.Triggered {
      DeadlineKept(s, e, since, p);
    } else {
      ArmedStep(s, e, since, p);
    }
  }

  lemma DeadlineKept(s: Iso.Process, e: Iso.Event, since: int, p: Iso.Params)
    requires p.Valid() && OnItsWay(s, since, p) && Iso.Enabled(s, e) && Iso.WithinBatches(e, p)
    requires (s.stopped || s.wd.status == Dog.Triggered) && (s.now >= since ==> Iso.Isolating(e, p))
    ensures OnItsWay(Iso.Next(s, e, p), since, p)
  {
    var t := Iso.Next(s, e, p);
    Iso.StaysAlive(s, e, p);
    if t.Acts() && p.software {
      if s.now >= since || e.Tick? {
        Iso.TriggeredStep(s, e, p);
      } else {
        Iso.Positive(p);
        Iso.RoundEndsInBound(t, p);
        SoftwareEndFrom(t, since, p);
      }
    }
  }

  lemma ArmedStep(s: Iso.Process, e: Iso.Event, since: int, p: Iso.Params)
    requires p.Valid() && OnItsWay(s, since, p) && Iso.Enabled(s, e) && Iso.WithinBatches(e, p)
    requires s.wd.status == Dog.Armed && !s.stopped && !Iso.Disarms(s, e) && (s.now >= since ==> Iso.Isolating(e, p))
    ensures OnItsWay(Iso.Next(s, e, p), since, p)
  {
    var t := Iso.Next(s, e, p);
    Iso.StaysAlive(s, e, p);
    Iso.LatestKept(s, e, since, p);
    Iso.DueBeforeLatest(s, p);
    Iso.Positive(p);
    if t.wd.status == Dog.Triggered && t.Acts() {
      JustTriggered(s, e, since, p);
    }
  }

  lemma JustTriggered(s: Iso.Process, e: Iso.Event, since: int, p: Iso.Params)
    requires p.Valid() && OnItsWay(s, since, p) && Iso.Enabled(s, e) && Iso.Alive(Iso.Next(s, e, p), p)
    requires s.wd.status == Dog.Armed && s.Acts() && s.now <= since + Iso.DetectionBound(p)
    requires Iso.Next(s, e, p).wd.status == Dog.Triggered && Iso.Next(s, e, p).Acts()
    ensures Iso.LatestSoftwareReboot(Iso.Next(s, e, p), p) <= SoftwareEnd(since, p)
  {
    var t := Iso.Next(s, e, p);
    if e.AgentReboots? {
      SoftwareEndFrom(t, since, p);
    } else {
      Iso.SoftwareRebootAfterCheck(t, p);
    }
  }

  /** Past the bound and what is left of its life, the host was reset. */
  lemma DeadAfterBound(s: Iso.Process, since: int, p: Iso.Params)
    requires p.Valid() && OnItsWay(s, since, p) && (p.software ==> !s.stopped)
    requires s.now >= since + Iso.DetectionBound(p) + Iso.LifeAfterTrigger(p)
    ensures s.Dead()
  {
    Iso.Positive(p);
    Iso.Scale(0, Iso.WaitsInSilence(p), Iso.Cycle(p));
    Iso.DueBeforeLatest(s, p);
    Iso.DueBeforeRoundEnds(s, p);
  }

  // ---------- the cluster ----------

  /**
   A reconcile that sets the assumed reboot time sets it to the calculated duration from now, less the lost fraction
   of a second.
   */
  lemma TimeIsSet(s: Rem.Server, strategy: Rem.Strategy, env: Rem.Env)
    requires Inv.ServerInv(s, strategy) && s.present && s.status.timeAssumedRebooted.None?
    requires Rem.ReconcileManager(s, strategy, env).server.status.timeAssumedRebooted.Some?
    ensures env.duration.Some?
    ensures Rem.ReconcileManager(s, strategy, env).server.status.timeAssumedRebooted.value
            == TruncateToSecond(env.now + env.duration.value)
  {
    if Inv.ReachesHandler(s, env) {
      Inv.StartedOk(s, strategy);
      Inv.RemediateOk(s, Rem.Started(s), strategy, env);
      TimeKept(s, Rem.Remediate(Rem.Started(s), strategy, env), env);
      TimeFromHandler(s, Rem.Started(s), strategy, env);
    } else {
      Inv.WithoutHandler(s, strategy, env);
    }
  }

  lemma TimeKept(s: Rem.Server, o: Rem.Outcome, env: Rem.Env)
    requires o.call.server.status == s.status && s.status.timeAssumedRebooted.None?
    ensures var t := Rem.FinishStatus(Rem.UpdateLastError(o, env), env).server.status.timeAssumedRebooted;
            t.None? || t == o.call.status.timeAssumedRebooted
  {
  }

  lemma TimeFromHandler(s: Rem.Server, c: Rem.Call, strategy: Rem.Strategy, env: Rem.Env)
    requires Inv.HandlerStart(s, c, strategy) && s.status.timeAssumedRebooted.None?
    ensures var t := Rem.Remediate(c, strategy, env).call.status.timeAssumedRebooted;
            t.Some? ==> env.duration.Some? && t.value == TruncateToSecond(env.now + env.duration.value)
  {
    assert Rem.GetPhase(c.status) == Rem.FencingStartedPhase;
    Inv.PrepareRebootOk(s, c, strategy, env);
  }

  // ---------- runs of the whole system ----------

  predicate WorldInv(w: World, strategy: Rem.Strategy, since: int, p: Iso.Params)
    requires p.Valid()
  {
    Runs.Inv(ClusterOf(w), strategy) && (Unguarded(w.process) || OnItsWay(w.process, since, p))
  }

  predicate Disarms(w: World, e: Event) {
    e.Host? && Iso.Disarms(w.process, e.h)
  }

  /** Somewhere in the run the agent's pod is shut down while its watchdog is armed, and the device gets closed. */
  ghost predicate Disarmed(w: World, events: seq<Event>, strategy: Rem.Strategy, p: Iso.Params)
    decreases |events|
  {
    events != [] && (Disarms(w, events[0]) || Disarmed(Next(w, events[0], strategy, p), events[1..], strategy, p))
  }

  lemma WorldStep(w: World, e: Event, strategy: Rem.Strategy, since: int, p: Iso.Params)
    requires p.Valid() && WorldInv(w, strategy, since, p) && Enabled(w, e) && StepIsolated(w, e, since, p)
    ensures WorldInv(Next(w, e, strategy, p), strategy, since, p)
    ensures Unguarded(Next(w, e, strategy, p).process) <==> Unguarded(w.process) || Disarms(w, e)
    ensures Inv.StepsTo(w.server.status, Next(w, e, strategy, p).server.status)
    ensures w.process.now <= Next(w, e, strategy, p).process.now
  {
    match e {
      case Cluster(c) => Runs.StepKeepsInv(ClusterOf(w), c, strategy);
      case Host(h) =>
        if !Unguarded(w.process) {
          HostStep(w.process, h, since, p);
        }
        TimeMovesOn(w, h, strategy, p);
    }
  }

  lemma TimeMovesOn(w: World, h: Iso.Event, strategy: Rem.Strategy, p: Iso.Params)
    requires Iso.Enabled(w.process, h) && Runs.Inv(ClusterOf(w), strategy)
    ensures w.process.now <= Iso.Next(w.process, h, p).now
    ensures Runs.Inv(ClusterOf(Next(w, Host(h), strategy, p)), strategy)
  {
  }

  lemma {:induction false} WorldRun(w: World, events: seq<Event>, v: World, strategy: Rem.Strategy, since: int,
                                    p: Iso.Params)
    requires p.Valid() && WorldInv(w, strategy, since, p)
    requires Reaches(w, events, v, strategy, p) && Isolated(w, events, since, strategy, p)
    ensures WorldInv(v, strategy, since, p)
    ensures Unguarded(v.process) <==> Unguarded(w.process) || Disarmed(w, events, strategy, p)
    ensures var time := w.server.status.timeAssumedRebooted;
            time.Some? ==> v.server.status.timeAssumedRebooted == time
    decreases |events|
  {
    if events == [] {
    } else {
      WorldStep(w, events[0], strategy, since, p);
      WorldRun(Next(w, events[0], strategy, p), events[1..], v, strategy, since, p);
    }
  }

  // ---------- run-once safety ----------

  /** From the isolation to the reset of the host, and the fraction of a second lost in storing the time. */
  function WorstCase(p: Iso.Params): int
    requires p.Valid()
  {
    Iso.DetectionBound(p) + Iso.LifeAfterTrigger(p) + SECOND - 1
  }

  /** What the manager waits covers the worst case. */
  predicate SafeMargin(p: Iso.Params, workers: nat, annotation: Option<int>)
    requires p.Valid()
  {
    WorstCase(p) <= RebootDuration(p.cfg, workers, annotation)
  }

  /**
   A run in three parts: from the start to the reconcile that computes the assumed reboot time, from there to a
   reconcile that removes the node's workloads, and that reconcile.
   */
  datatype Story = Story(
    start: World, before: seq<Event>, computing: World, compute: Rem.Env,
    between: seq<Event>, removing: World, remove: Rem.Env,
    since: int, strategy: Rem.Strategy)
  {
    function Computed(p: Iso.Params): World {
      Next(computing, Cluster(Runs.Manager(compute)), strategy, p)
    }

    /** The device is never closed by a shutdown of the agent's pod. */
    ghost predicate KeptArmed(p: Iso.Params) {
      !Disarmed(start, before, strategy, p) && !Disarmed(Computed(p), between, strategy, p)
    }

    /** Nor is the pod shut down at all, where a software reboot is counted on. */
    ghost predicate Undisturbed(p: Iso.Params) {
      KeptArmed(p) && (p.software ==> !removing.process.stopped)
    }
  }

  /** The reconcile takes its duration from the calculator, if the calculator does not fail. */
  predicate FromCalculator(env: Rem.Env, p: Iso.Params, workers: nat, annotation: Option<int>) {
    env.duration.Some? ==> env.duration.value == RebootDuration(p.cfg, workers, annotation)
  }

  /**
   A worker whose watchdog is armed is isolated from some time on that is not later than the reconcile which computes
   the assumed reboot time. Writes may fail and get lost in any way.
   */
  ghost predicate Unfolds(r: Story, p: Iso.Params) {
    && p.Valid()
    && Runs.Init(ClusterOf(r.start)) && Iso.Alive(r.start.process, p)
    && r.start.process.now <= r.since <= r.computing.process.now
    && Reaches(r.start, r.before, r.computing, r.strategy, p) && Isolated(r.start, r.before, r.since, r.strategy, p)
    && Enabled(r.computing, Cluster(Runs.Manager(r.compute)))
    && r.computing.server.status.timeAssumedRebooted.None? && r.Computed(p).server.status.timeAssumedRebooted.Some?
    && Reaches(r.Computed(p), r.between, r.removing, r.strategy, p)
    && Isolated(r.Computed(p), r.between, r.since, r.strategy, p)
    && Enabled(r.removing, Cluster(Runs.Manager(r.remove)))
    && Rem.ReconcileManager(r.removing.server, r.strategy, r.remove).removal
  }

  /** The premises of run-once safety: such a story, with the time computed from the calculator's duration. */
  ghost predicate Happens(r: Story, p: Iso.Params, workers: nat, annotation: Option<int>) {
    Unfolds(r, p) && FromCalculator(r.compute, p, workers, annotation)
  }

  /** What holds once the time is computed. */
  lemma AtComputing(r: Story, p: Iso.Params)
    requires Unfolds(r, p)
    ensures WorldInv(r.Computed(p), r.strategy, r.since, p)
    ensures Unguarded(r.Computed(p).process) <==> Disarmed(r.start, r.before, r.strategy, p)
    ensures var assumed := r.Computed(p).server.status.timeAssumedRebooted.value;
            r.compute.duration.Some? && assumed > r.computing.process.now + r.compute.duration.value - SECOND
  {
    StartsOnItsWay(r.start.process, r.since, p);
    WorldRun(r.start, r.before, r.computing, r.strategy, r.since, p);
    WorldStep(r.computing, Cluster(Runs.Manager(r.compute)), r.strategy, r.since, p);
    ComputedTime(r.computing, r.compute, r.strategy, p);
  }

  lemma ComputedTime(w: World, env: Rem.Env, strategy: Rem.Strategy, p: Iso.Params)
    requires Runs.Inv(ClusterOf(w), strategy) && Enabled(w, Cluster(Runs.Manager(env)))
    requires w.server.status.timeAssumedRebooted.None?
    requires Next(w, Cluster(Runs.Manager(env)), strategy, p).server.status.timeAssumedRebooted.Some?
    ensures env.duration.Some?
    ensures var assumed := Next(w, Cluster(Runs.Manager(env)), strategy, p).server.status.timeAssumedRebooted.value;
            assumed > env.now + env.duration.value - SECOND
  {
    TimeIsSet(w.server, strategy, env);
  }

  lemma RemovedInTime(w: World, remove: Rem.Env, strategy: Rem.Strategy)
    requires Runs.Inv(ClusterOf(w), strategy) && Enabled(w, Cluster(Runs.Manager(remove)))
    requires Rem.ReconcileManager(w.server, strategy, remove).removal
    ensures w.server.status.timeAssumedRebooted.Some? && w.server.status.timeAssumedRebooted.value <= w.process.now
  {
    Runs.RemovalOnlyInRebootCompleted(w.server, strategy, remove);
  }

  /** What holds when the workloads are removed. */
  lemma AtRemoval(r: Story, p: Iso.Params)
    requires Unfolds(r, p)
    ensures WorldInv(r.removing, r.strategy, r.since, p) && (Unguarded(r.removing.process) <==> !r.KeptArmed(p))
    ensures r.compute.duration.Some?
    ensures r.removing.process.now > r.computing.process.now + r.compute.duration.value - SECOND
  {
    AtComputing(r, p);
    WorldRun(r.Computed(p), r.between, r.removing, r.strategy, r.since, p);
    RemovedInTime(r.removing, r.remove, r.strategy);
  }

  /**
   Run-once safety: provided the margin is safe, in every run of the whole system the host was reset before the manager
   deletes pods or adds the out-of-service taint, if the agent is undisturbed; and it was not, if a shutdown of the
   agent's pod has closed the device.
   */
  lemma RunOnceSafety(r: Story, p: Iso.Params, workers: nat, annotation: Option<int>)
    ensures Happens(r, p, workers, annotation) && SafeMargin(p, workers, annotation) && r.Undisturbed(p) ==>
              r.removing.process.Dead()
    ensures Happens(r, p, workers, annotation) && !r.KeptArmed(p) ==> !r.removing.process.Dead()
  {
    if Happens(r, p, workers, annotation) {
      AtRemoval(r, p);
      if SafeMargin(p, workers, annotation) && r.Undisturbed(p) {
        DeadAfterBound(r.removing.process, r.since, p);
      }
    }
  }

  // ---------- every run is such a story ----------

  /** A step that sets the assumed reboot time comes after the isolation began and takes the calculator's duration. */
  predicate StepCalculated(w: World, e: Event, since: int, strategy: Rem.Strategy, p: Iso.Params,
                           workers: nat, annotation: Option<int>) {
    && w.server.status.timeAssumedRebooted.None? && Next(w, e, strategy, p).server.status.timeAssumedRebooted.Some?
    && e.Cluster? && e.c.Manager? ==>
      since <= w.process.now && FromCalculator(e.c.env, p, workers, annotation)
  }

  ghost predicate Calculated(w: World, events: seq<Event>, since: int, strategy: Rem.Strategy, p: Iso.Params,
                             workers: nat, annotation: Option<int>)
    decreases |events|
  {
    events == [] ||
    (&& StepCalculated(w, events[0], since, strategy, p, workers, annotation)
     && Calculated(Next(w, events[0], strategy, p), events[1..], since, strategy, p, workers, annotation))
  }

  lemma OnlyReconcilesSetTime(w: World, e: Event, strategy: Rem.Strategy, p: Iso.Params)
    ensures (e.Cluster? && e.c.Manager?) || Next(w, e, strategy, p).server.status == w.server.status
  {
  }

  /** The step at which a run sets the time. */
  lemma {:induction false} FindComputing(w: World, events: seq<Event>, v: World, strategy: Rem.Strategy, p: Iso.Params)
    returns (k: nat, computing: World, env: Rem.Env)
    requires Reaches(w, events, v, strategy, p)
    requires w.server.status.timeAssumedRebooted.None? && v.server.status.timeAssumedRebooted.Some?
    ensures k < |events| && events[k] == Cluster(Runs.Manager(env))
    ensures Reaches(w, events[..k], computing, strategy, p) && Enabled(computing, events[k])
    ensures computing.server.status.timeAssumedRebooted.None?
    ensures Next(computing, events[k], strategy, p).server.status.timeAssumedRebooted.Some?
    ensures Reaches(Next(computing, events[k], strategy, p), events[k + 1..], v, strategy, p)
    decreases |events|
  {
    var next := Next(w, events[0], strategy, p);
    OnlyReconcilesSetTime(w, events[0], strategy, p);
    if next.server.status.timeAssumedRebooted.Some? {
      k, computing, env := 0, w, events[0].c.env;
    } else {
      k, computing, env := FindComputing(next, events[1..], v, strategy, p);
      assert events[..k + 1][1..] == events[1..][..k] && events[1..][k + 1..] == events[k + 2..];
      k := k + 1;
    }
  }

  /** What holds of a run holds of its parts. */
  lemma {:induction false} Parts(w: World, events: seq<Event>, k: nat, x: World, since: int, strategy: Rem.Strategy,
                                 p: Iso.Params, workers: nat, annotation: Option<int>)
    requires k < |events| && Reaches(w, events[..k], x, strategy, p) && Isolated(w, events, since, strategy, p)
    requires Calculated(w, events, since, strategy, p, workers, annotation)
    ensures Isolated(w, events[..k], since, strategy, p)
    ensures StepCalculated(x, events[k], since, strategy, p, workers, annotation)
    ensures Isolated(Next(x, events[k], strategy, p), events[k + 1..], since, strategy, p)
    decreases k
  {
    if k == 0 {
    } else {
      assert events[..k][1..] == events[1..][..k - 1] && events[1..][k..] == events[k + 1..];
      Parts(Next(w, events[0], strategy, p), events[1..], k - 1, x, since, strategy, p, workers, annotation);
    }
  }

  /**
   A run from the start to a removal of workloads, of a worker that is isolated from `since` on, before the time is
   computed.
   */
  ghost predicate RunsToRemoval(w: World, events: seq<Event>, v: World, remove: Rem.Env, since: int,
                                strategy: Rem.Strategy, p: Iso.Params, workers: nat, annotation: Option<int>) {
    && p.Valid() && Runs.Init(ClusterOf(w)) && Iso.Alive(w.process, p) && w.process.now <= since
    && Reaches(w, events, v, strategy, p) && Isolated(w, events, since, strategy, p)
    && Calculated(w, events, since, strategy, p, workers, annotation)
    && Enabled(v, Cluster(Runs.Manager(remove))) && Rem.ReconcileManager(v.server, strategy, remove).removal
  }

  lemma Cut(events: seq<Event>, k: nat)
    requires k < |events|
    ensures events == events[..k] + [events[k]] + events[k + 1..]
  {
  }

  lemma SplitRun(w: World, events: seq<Event>, v: World, remove: Rem.Env, since: int, strategy: Rem.Strategy,
                 p: Iso.Params, workers: nat, annotation: Option<int>) returns (r: Story)
    requires RunsToRemoval(w, events, v, remove, since, strategy, p, workers, annotation)
    requires v.server.status.timeAssumedRebooted.Some?
    ensures Happens(r, p, workers, annotation)
    ensures r.start == w && r.removing == v && r.since == since && r.strategy == strategy
    ensures events == r.before + [Cluster(Runs.Manager(r.compute))] + r.between
  {
    var k, computing, env := FindComputing(w, events, v, strategy, p);
    Parts(w, events, k, computing, since, strategy, p, workers, annotation);
    Cut(events, k);
    r := Story(w, events[..k], computing, env, events[k + 1..], v, remove, since, strategy);
  }

  /** Every such run is a story. */
  lemma EveryRunIsAStory(w: World, events: seq<Event>, v: World, remove: Rem.Env, since: int, strategy: Rem.Strategy,
                         p: Iso.Params, workers: nat, annotation: Option<int>) returns (r: Story)
    requires RunsToRemoval(w, events, v, remove, since, strategy, p, workers, annotation)
    ensures Happens(r, p, workers, annotation) && r.start == w && r.removing == v
    ensures events == r.before + [Cluster(Runs.Manager(r.compute))] + r.between
    ensures r.KeptArmed(p) <==> !Disarmed(w, events, strategy, p)
  {
    StartsOnItsWay(w.process, since, p);
    WorldRun(w, events, v, strategy, since, p);
    RemovedInTime(v, remove, strategy);
    r := SplitRun(w, events, v, remove, since, strategy, p, workers, annotation);
    AtRemoval(r, p);
  }

  /**
   Run-once safety of whole runs: with a safe margin, every run from the start to a removal of workloads has the host
   reset by then, if no shutdown of the agent's pod closes the device, and none happens at all where a software reboot
   is counted on; without the first condition the host is not reset.
   */
  lemma EveryRunIsSafe(w: World, events: seq<Event>, v: World, remove: Rem.Env, since: int, strategy: Rem.Strategy,
                       p: Iso.Params, workers: nat, annotation: Option<int>)
    ensures RunsToRemoval(w, events, v, remove, since, strategy, p, workers, annotation) ==>
              && (SafeMargin(p, workers, annotation) && (p.software ==> !v.process.stopped) ==>
                    (v.process.Dead() <==> !Disarmed(w, events, strategy, p)))
              && (Disarmed(w, events, strategy, p) ==> !v.process.Dead())
  {
    if RunsToRemoval(w, events, v, remove, since, strategy, p, workers, annotation) {
      var r := EveryRunIsAStory(w, events, v, remove, since, strategy, p, workers, annotation);
      RunOnceSafety(r, p, workers, annotation);
    }
  }

  // ---------- when the margin is safe ----------

  /** The specified time alone is long enough. */
  predicate SpecifiedLongEnough(p: Iso.Params)
    requires p.Valid()
  {
    var seconds := p.cfg.safeTimeToAssumeNodeRebootedSeconds;
    seconds.Some? && WorstCase(p) <= seconds.value * SECOND
  }

  /** What the calculator reserves beyond the agent's own rounds and the host's life, the buffer aside. */
  function Spare(p: Iso.Params, workers: nat, annotation: Option<int>): int
    requires p.Valid()
  {
    Max(PeerRequestsDuration(p.cfg, BatchesLeft(workers, workers)), Iso.SILENCE) - Iso.RoundTime(p)
    + AnnotatedTimeout(annotation) - Iso.LifeAfterTrigger(p)
  }

  /**
   What is spare makes up for the lost fraction of a second, together with the buffer alone, and with the turns the
   threshold adds and what the last quiet check leaves of the buffer.
   */
  predicate EnoughSpare(p: Iso.Params, workers: nat, annotation: Option<int>)
    requires p.Valid()
  {
    var spare := Spare(p, workers, annotation);
    && REBOOT_BUFFER + spare >= SECOND - 1
    && (p.Threshold() - 1) * p.Turn() + REBOOT_BUFFER - Iso.LastQuietEnd(p) + spare >= SECOND - 1
  }

  /** The margin is safe exactly when the specified time is long enough, or the calculated one has enough to spare. */
  lemma MarginExactly(p: Iso.Params, workers: nat, annotation: Option<int>)
    requires p.Valid()
    ensures SafeMargin(p, workers, annotation) <==> SpecifiedLongEnough(p) || EnoughSpare(p, workers, annotation)
  {
    var bound, life, quiet := Iso.DetectionBound(p), Iso.LifeAfterTrigger(p), Iso.LastQuietEnd(p);
    Iso.Distribute(p.Threshold() - 1, p.Turn());
  }

  /** What a configuration has to spare by itself: turns, the rest of the silence limit, a short round, a short life. */
  function OwnReserve(p: Iso.Params): int
    requires p.Valid()
  {
    (p.Threshold() - 1) * p.Turn() + (Iso.SILENCE - Iso.LastQuietEnd(p))
    + (Iso.SILENCE - Min(Iso.RoundTime(p), Iso.SILENCE)) + (p.watchdogTimeout - Iso.LifeAfterTrigger(p))
  }

  /**
   If all of the agent's batches are counted and the annotated timeout is not below the device's, the margin is safe if
   the configuration has a second of its own to spare, as with a threshold of two or more, since check intervals are
   at least a second. If both are exact and no time is specified, it is safe in no other case.
   */
  lemma MarginOfValidConfigs(p: Iso.Params, workers: nat, annotation: Option<int>)
    requires p.Valid() && p.cfg.apiCheckInterval >= SECOND
    ensures var counted, annotated := BatchesLeft(workers, workers), AnnotatedTimeout(annotation);
            var robust := OwnReserve(p) >= SECOND - 1;
            && (p.batches <= counted && p.watchdogTimeout <= annotated && robust ==> SafeMargin(p, workers, annotation))
            && (p.batches == counted && p.watchdogTimeout == annotated ==>
                  p.cfg.safeTimeToAssumeNodeRebootedSeconds.None? ==> (SafeMargin(p, workers, annotation) <==> robust))
    ensures p.Threshold() >= 2 || Iso.RoundTime(p) <= Iso.SILENCE - SECOND + 1 ==> OwnReserve(p) >= SECOND - 1
  {
    MarginExactly(p, workers, annotation);
    if p.batches <= BatchesLeft(workers, workers) {
      Iso.Scale(p.batches, BatchesLeft(workers, workers), p.BatchTime());
    }
    Reserved(p);
  }

  lemma Reserved(p: Iso.Params)
    requires p.Valid() && p.cfg.apiCheckInterval >= SECOND
    ensures Iso.LastQuietEnd(p) <= Iso.SILENCE && Iso.LifeAfterTrigger(p) <= p.watchdogTimeout
    ensures (p.Threshold() - 1) * p.Turn() >= if p.Threshold() >= 2 then SECOND else 0
    ensures p.Threshold() >= 2 || Iso.RoundTime(p) <= Iso.SILENCE - SECOND + 1 ==> OwnReserve(p) >= SECOND - 1
  {
    if p.Threshold() >= 2 {
      Iso.Scale(1, p.Threshold() - 1, p.Turn());
    }
  }

  /** An agent in a cluster with that many workers: it lists the others. */
  function InCluster(cfg: Config, watchdogTimeout: int, workers: nat, software: bool): Iso.Params
    requires workers >= 1
  {
    Iso.Params(cfg, watchdogTimeout, {workers - 1}, BatchesLeft(workers - 1, workers - 1), software)
  }

  /**
   The calculator counts all workers, the agent lists the others: the count covers the agent's rounds unless the number
   of workers is at least 43 and ends in 3; then 11 batches are counted and up to three more are asked.
   */
  lemma CountCovers(cfg: Config, watchdogTimeout: int, workers: nat, software: bool)
    requires workers >= 1
    ensures var asked := InCluster(cfg, watchdogTimeout, workers, software).batches;
            var counted := BatchesLeft(workers, workers);
            && (asked <= counted <==> !(workers >= 43 && workers % 10 == 3))
            && (asked > counted ==> counted == 11 && asked <= 14)
  {
    UndercountExactly(workers);
    if workers >= 43 && workers % 10 == 3 {
      CountDrops(workers);
    }
  }
}
