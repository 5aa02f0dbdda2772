/**
 The margin is needed: for every configuration without it, a run in which the manager deletes the node's pods while
 the host is still running. The host takes as long as it may for everything, and the manager's time is stored without
 its fraction of a second.
 */
module UnsafeRuns {
  import opened Basics
  import opened Batches
  import opened Calculator
  import opened Taints
  import opened Remediation
  import Runs = RemediationRuns
  import Iso = Isolation
  import Host = HostRuns
  import Longest = LongestRuns
  import Dog = Watchdog
  import opened EndToEnd

  // ---------- the manager ----------

  function AllWellAt(now: int, duration: int): Env {
    Env(now, Found, Found, false, true, Some(duration), true, Done, Done, Done, Done, Done, Done, Done, Done, false)
  }

  const STARTED := UpdateConditions(NEW_STATUS, RemediationStarted)

  const UNTOUCHED := Server(true, Meta(0, false, false, false), false, NEW_STATUS, Node(false, []))

  function NoExecuteAt(t: int): Taint {
    NODE_NO_EXECUTE.(timeAdded := Some(t))
  }

  function Cordoned(t: int): Server {
    UNTOUCHED.(finalizer := true, status := STARTED, node := Node(true, [NoExecuteAt(t)]))
  }

  function Prepared(t: int): Server {
    Cordoned(t).(node := Node(true, [NoExecuteAt(t), NODE_UNSCHEDULABLE]))
  }

  function AssumedRebooted(t: int, at: int): Server {
    Prepared(t).(status := STARTED.(phase := Some(PreRebootCompleted), timeAssumedRebooted := Some(at)))
  }

  function Rebooted(t: int, at: int): Server {
    Prepared(t).(status := STARTED.(phase := Some(RebootCompleted), timeAssumedRebooted := Some(at)))
  }

  lemma FinalizerStep(t: int, d: int)
    ensures ReconcileManager(UNTOUCHED, ResourceDeletion, AllWellAt(t, d)).server == UNTOUCHED.(finalizer := true)
  {
  }

  lemma CordonStep(t: int, d: int)
    ensures ReconcileManager(UNTOUCHED.(finalizer := true), ResourceDeletion, AllWellAt(t, d)).server == Cordoned(t)
  {
    var taints := [NoExecuteAt(t)];
    assert [] + [NoExecuteAt(t)] == taints;
    assert !Has(taints, NODE_UNSCHEDULABLE);
  }

  lemma TaintStep(t: int)
    ensures Runs.Enabled(Runs.State(t, Cordoned(t)), Runs.NodeController(Prepared(t).node.taints))
  {
    var a, b := Cordoned(t).node.taints, Prepared(t).node.taints;
    assert b == a + [NODE_UNSCHEDULABLE];
    ForeignAppend(a, NODE_UNSCHEDULABLE);
    HasAppend(a, NODE_UNSCHEDULABLE, NODE_UNSCHEDULABLE);
    HasAppend(a, NODE_UNSCHEDULABLE, NODE_NO_EXECUTE);
    HasAppend(a, NODE_UNSCHEDULABLE, OUT_OF_SERVICE);
  }

  lemma TimeStep(t: int, d: int)
    ensures ReconcileManager(Prepared(t), ResourceDeletion, AllWellAt(t, d)).server
            == AssumedRebooted(t, TruncateToSecond(t + d))
  {
    assert Matches(Prepared(t).node.taints[0], NODE_NO_EXECUTE);
    assert Matches(Prepared(t).node.taints[1], NODE_UNSCHEDULABLE);
  }

  lemma RebootStep(t: int, at: int, now: int, d: int)
    requires at <= now
    ensures ReconcileManager(AssumedRebooted(t, at), ResourceDeletion, AllWellAt(now, d)).server == Rebooted(t, at)
    ensures ReconcileManager(Rebooted(t, at), ResourceDeletion, AllWellAt(now, d)).removal
  {
  }

  // ---------- runs of the whole system ----------

  ghost predicate IsolatedRun(w: World, events: seq<Event>, v: World, since: int, p: Iso.Params) {
    Reaches(w, events, v, ResourceDeletion, p) && Isolated(w, events, since, ResourceDeletion, p)
  }

  lemma {:induction false} Then(w: World, events: seq<Event>, v: World, e: Event, since: int, p: Iso.Params)
    requires IsolatedRun(w, events, v, since, p) && Enabled(v, e) && e.Cluster?
    ensures IsolatedRun(w, events + [e], Next(v, e, ResourceDeletion, p), since, p)
    decreases |events|
  {
    if events == [] {
      assert events + [e] == [e] && [e][1..] == [];
    } else {
      assert (events + [e])[1..] == events[1..] + [e];
      Then(Next(w, events[0], ResourceDeletion, p), events[1..], v, e, since, p);
    }
  }

  /** What the host does, nothing happens in the cluster meanwhile. */
  lemma {:induction false} Lift(server: Server, s: Iso.Process, events: seq<Iso.Event>, t: Iso.Process, since: int,
                                p: Iso.Params)
    returns (lifted: seq<Event>)
    requires Host.HostRun(s, events, t, since, p)
    ensures IsolatedRun(World(server, s), lifted, World(server, t), since, p)
    decreases |events|
  {
    if events == [] {
      lifted := [];
    } else {
      var rest := Lift(server, Iso.Next(s, events[0], p), events[1..], t, since, p);
      lifted := [EndToEnd.Host(events[0])] + rest;
      assert lifted[1..] == rest;
    }
  }

  /** What the manager does before it computes the assumed reboot time. */
  lemma PreparedRun(s: Iso.Process, d: int, p: Iso.Params) returns (events: seq<Event>)
    ensures IsolatedRun(World(UNTOUCHED, s), events, World(Prepared(s.now), s), s.now, p)
  {
    var w, m := World(UNTOUCHED, s), Cluster(Runs.Manager(AllWellAt(s.now, d)));
    var n := Cluster(Runs.NodeController(Prepared(s.now).node.taints));
    FinalizerStep(s.now, d);
    CordonStep(s.now, d);
    TaintStep(s.now);
    Then(w, [], w, m, s.now, p);
    Then(w, [] + [m], World(UNTOUCHED.(finalizer := true), s), m, s.now, p);
    Then(w, [] + [m] + [m], World(Cordoned(s.now), s), n, s.now, p);
    events := [] + [m] + [m] + [n];
  }

  /** An isolation that begins such that storing the time loses most of a second. */
  function UnluckyStart(duration: int): (since: int)
    ensures TruncateToSecond(since + duration) == since + duration - (SECOND - 1)
  {
    SECOND - 1 - duration % SECOND
  }

  lemma Computing(s: Iso.Process, d: int, p: Iso.Params)
    ensures var w, m := World(Prepared(s.now), s), Cluster(Runs.Manager(AllWellAt(s.now, d)));
            && Enabled(w, m)
            && Next(w, m, ResourceDeletion, p) == World(AssumedRebooted(s.now, TruncateToSecond(s.now + d)), s)
  {
    TimeStep(s.now, d);
  }

  /** From the computed time to the removal, which comes at the last instant of the host's life. */
  lemma RemovalRun(s: Iso.Process, host: seq<Iso.Event>, t: Iso.Process, d: int, p: Iso.Params)
    returns (events: seq<Event>)
    requires Host.HostRun(s, host, t, s.now, p) && TruncateToSecond(s.now + d) <= t.now
    ensures var at := TruncateToSecond(s.now + d);
            && IsolatedRun(World(AssumedRebooted(s.now, at), s), events, World(Rebooted(s.now, at), t), s.now, p)
            && ReconcileManager(Rebooted(s.now, at), ResourceDeletion, AllWellAt(t.now, d)).removal
  {
    var at, m := TruncateToSecond(s.now + d), Cluster(Runs.Manager(AllWellAt(t.now, d)));
    var before, after := AssumedRebooted(s.now, at), Rebooted(s.now, at);
    events := Lift(before, s, host, t, s.now, p);
    RebootStep(s.now, at, t.now, d);
    Then(World(before, s), events, World(before, t), m, s.now, p);
    events := events + [m];
  }

  function StoryOf(s: Iso.Process, before: seq<Event>, between: seq<Event>, t: Iso.Process, d: int): Story {
    Story(World(UNTOUCHED, s), before, World(Prepared(s.now), s), AllWellAt(s.now, d),
          between, World(Rebooted(s.now, TruncateToSecond(s.now + d)), t), AllWellAt(t.now, d), s.now, ResourceDeletion)
  }

  lemma Assemble(s: Iso.Process, host: seq<Iso.Event>, t: Iso.Process, d: int, p: Iso.Params) returns (r: Story)
    requires p.Valid() && Iso.Alive(s, p) && Host.HostRun(s, host, t, s.now, p)
    requires TruncateToSecond(s.now + d) <= t.now
    ensures Unfolds(r, p) && r.compute.duration == Some(d) && r.start.process == s && r.removing.process == t
  {
    var before := PreparedRun(s, d, p);
    var between := RemovalRun(s, host, t, d, p);
    Computing(s, d, p);
    r := StoryOf(s, before, between, t, d);
  }

  /** Whatever an isolated host does can be part of a story, if it lasts until the assumed reboot time. */
  lemma Tell(s: Iso.Process, host: seq<Iso.Event>, t: Iso.Process, d: int, p: Iso.Params) returns (r: Story)
    requires p.Valid() && Iso.Alive(s, p) && Host.HostRun(s, host, t, s.now, p)
    requires TruncateToSecond(s.now + d) <= t.now
    ensures Unfolds(r, p) && r.compute.duration == Some(d) && r.start.process == s && r.removing.process == t
    ensures r.KeptArmed(p) <==> !Unguarded(t)
  {
    r := Assemble(s, host, t, d, p);
    AtRemoval(r, p);
  }

  // ---------- run-once safety exactly ----------

  /** Without a safe margin the removal is due before the host's end. */
  lemma RemovalDue(p: Iso.Params, d: int) returns (since: int, until: int)
    requires p.Valid() && d < WorstCase(p) && Iso.LifeAfterTrigger(p) >= 1
    ensures TruncateToSecond(since + d) <= until
    ensures since + Iso.DetectionBound(p) <= until < since + Iso.DetectionBound(p) + Iso.LifeAfterTrigger(p)
  {
    since := UnluckyStart(d);
    until := Max(since + Iso.DetectionBound(p), since + d - (SECOND - 1));
  }

  lemma LivesOn(p: Iso.Params)
    requires p.Valid()
    ensures Iso.LifeAfterTrigger(p) >= 1
  {
    Iso.Positive(p);
    Iso.Scale(0, Iso.WaitsInSilence(p), Iso.Cycle(p));
  }

  /**
   The unsafe run: an agent that has started at some time, all premises of run-once safety, and a host that is running
   when its workloads are removed.
   */
  lemma UnsafeRun(p: Iso.Params, workers: nat, annotation: Option<int>) returns (r: Story)
    requires Host.Admissible(p) && !SafeMargin(p, workers, annotation)
    ensures Happens(r, p, workers, annotation) && Iso.Arises(r.start.process, p) && r.Undisturbed(p)
    ensures !r.removing.process.Dead()
  {
    LivesOn(p);
    var since, until := RemovalDue(p, RebootDuration(p.cfg, workers, annotation));
    var s, host, t := Longest.LongestLife(since, until, p);
    Longest.StartsAlive(s, s.now, p);
    r := Tell(s, host, t, RebootDuration(p.cfg, workers, annotation), p);
  }

  /** Stories do happen, whatever the margin: here the workloads are removed after the host was reset. */
  lemma SafeRun(p: Iso.Params, workers: nat, annotation: Option<int>) returns (r: Story)
    requires Host.Admissible(p)
    ensures Happens(r, p, workers, annotation) && Iso.Arises(r.start.process, p) && r.Undisturbed(p)
    ensures r.removing.process.Dead()
  {
    var s, host, t := Longest.LifeAndDeath(TruncateToSecond(RebootDuration(p.cfg, workers, annotation)), p);
    Longest.StartsAlive(s, s.now, p);
    r := Tell(s, host, t, RebootDuration(p.cfg, workers, annotation), p);
  }

  /**
   No margin helps if the agent's pod is shut down: the device is closed, and workloads are removed while the host
   runs.
   */
  lemma ShutdownRun(p: Iso.Params, workers: nat, annotation: Option<int>) returns (r: Story)
    requires p.Valid()
    ensures Happens(r, p, workers, annotation) && Iso.Arises(r.start.process, p) && !r.KeptArmed(p)
    ensures !r.removing.process.Dead()
  {
    var until := Max(0, TruncateToSecond(RebootDuration(p.cfg, workers, annotation)));
    var s, host, t := Longest.LifeAfterShutdown(until, p);
    Longest.StartsAlive(s, s.now, p);
    r := Tell(s, host, t, RebootDuration(p.cfg, workers, annotation), p);
  }

  /** In every undisturbed run of an agent that has started at some time, the host was reset before the removal. */
  ghost predicate Safe(p: Iso.Params, workers: nat, annotation: Option<int>) {
    forall r: Story :: Happens(r, p, workers, annotation) && Iso.Arises(r.start.process, p) && r.Undisturbed(p) ==>
                         r.removing.process.Dead()
  }

  /** Run-once safety exactly: for every admissible configuration, every run is safe if and only if the margin is. */
  lemma RunOnceSafetyExactly(p: Iso.Params, workers: nat, annotation: Option<int>)
    requires Host.Admissible(p)
    ensures Safe(p, workers, annotation) <==> SafeMargin(p, workers, annotation)
  {
    if SafeMargin(p, workers, annotation) {
      forall r: Story | Happens(r, p, workers, annotation) && Iso.Arises(r.start.process, p) && r.Undisturbed(p)
        ensures r.removing.process.Dead()
      {
        RunOnceSafety(r, p, workers, annotation);
      }
    } else {
      var r := UnsafeRun(p, workers, annotation);
    }
  }

  // ---------- clusters ----------

  /** A configuration that admission accepts, and a device that counts in seconds. */
  predicate AdmissibleConfig(cfg: Config, watchdogTimeout: int) {
    && cfg.apiCheckInterval >= SECOND && cfg.apiServerTimeout >= 0 && cfg.maxApiErrorThreshold >= 1
    && cfg.peerDialTimeout >= 0 && cfg.peerRequestTimeout >= 0 && watchdogTimeout >= SECOND
  }

  /** With another worker to list, an agent is admissible. */
  lemma AgentAdmissible(cfg: Config, watchdogTimeout: int, workers: nat, software: bool)
    requires workers >= 2 && AdmissibleConfig(cfg, watchdogTimeout)
    ensures var p := InCluster(cfg, watchdogTimeout, workers, software); Host.Admissible(p) && p.batches >= 1
  {
    var n: nat := workers - 1;
    var p := InCluster(cfg, watchdogTimeout, workers, software);
    assert n in p.lists && n >= 1 && BatchesLeft(n, n) == p.batches;
  }

  /**
   In a cluster of two or more workers the workloads of an isolated one are safe, in every run of an agent that lists
   the others, if and only if the specified time is long enough or the calculated one has enough to spare, as far as
   the configuration, the number of workers, the device, its annotation and the software reboot tell.
   */
  lemma ClusterSafeExactly(cfg: Config, watchdogTimeout: int, workers: nat, annotation: Option<int>, software: bool)
    requires workers >= 2 && AdmissibleConfig(cfg, watchdogTimeout)
    ensures var p := InCluster(cfg, watchdogTimeout, workers, software);
            Safe(p, workers, annotation) <==> SpecifiedLongEnough(p) || EnoughSpare(p, workers, annotation)
  {
    var p := InCluster(cfg, watchdogTimeout, workers, software);
    AgentAdmissible(cfg, watchdogTimeout, workers, software);
    RunOnceSafetyExactly(p, workers, annotation);
    MarginExactly(p, workers, annotation);
  }

  const DEFAULTS := Config(15 * SECOND, 5 * SECOND, 3, 5 * SECOND, 5 * SECOND, None)

  /** With the default configuration batches take ten seconds, and a check can end at the last instant of the limit. */
  lemma DefaultTimes(p: Iso.Params)
    requires p.cfg == DEFAULTS && p.Valid()
    ensures p.BatchTime() == 10 * SECOND && p.Turn() == 20 * SECOND && Iso.Cycle(p) == (2 + p.batches) * (10 * SECOND)
    ensures Iso.LastQuietEnd(p) == Iso.QuietAfterTrigger(p) == 30 * SECOND
  {
    assert Iso.WaitsInSilence(p) == 2;
    Iso.Positive(p);
    Iso.Scale(0, Max(p.batches - 1, 0), p.BatchTime());
    assert 2 * Iso.Cycle(p) >= 40 * SECOND;
  }

  /** The buffer for rebooting is what runs out first. */
  lemma DefaultMargin(p: Iso.Params, workers: nat, annotation: Option<int>)
    requires p.cfg == DEFAULTS && p.Valid()
    ensures Iso.LifeAfterTrigger(p) ==
            if p.software then Min(p.watchdogTimeout, (5 + p.batches) * (10 * SECOND) + 1) else p.watchdogTimeout
    ensures SafeMargin(p, workers, annotation) <==>
            p.batches * (10 * SECOND) + Iso.LifeAfterTrigger(p) + SECOND - 1
            <= Max(BatchesLeft(workers, workers) * (10 * SECOND), 30 * SECOND)
               + AnnotatedTimeout(annotation) + 30 * SECOND
  {
    DefaultTimes(p);
    MarginExactly(p, workers, annotation);
  }

  /**
   With the default configuration and the device's timeout annotated, exactly clusters of 43 and of 53 workers are not
   safe, unless a software reboot works and the device is slower than that.
   */
  lemma DefaultsSafeExactly(workers: nat, seconds: int, software: bool)
    requires workers >= 2 && seconds >= 1
    ensures Safe(InCluster(DEFAULTS, seconds * SECOND, workers, software), workers, Some(seconds))
            <==> !(43 <= workers < 63 && workers % 10 == 3 && (software ==> seconds <= 190))
  {
    var p := InCluster(DEFAULTS, seconds * SECOND, workers, software);
    AgentAdmissible(DEFAULTS, seconds * SECOND, workers, software);
    RunOnceSafetyExactly(p, workers, Some(seconds));
    DefaultMargin(p, workers, Some(seconds));
    CountCovers(DEFAULTS, seconds * SECOND, workers, software);
    ThreeTooFewExactly(workers);
  }

  /** A run for each of these clusters, whether or not a software reboot works. */
  lemma DefaultClusterIsUnsafe(workers: nat, seconds: int, software: bool) returns (r: Story)
    requires 43 <= workers < 63 && workers % 10 == 3 && 1 <= seconds && (software ==> seconds <= 190)
    ensures var p := InCluster(DEFAULTS, seconds * SECOND, workers, software);
            && Happens(r, p, workers, Some(seconds)) && Iso.Arises(r.start.process, p) && r.Undisturbed(p)
            && !r.removing.process.Dead()
  {
    var p := InCluster(DEFAULTS, seconds * SECOND, workers, software);
    AgentAdmissible(DEFAULTS, seconds * SECOND, workers, software);
    DefaultMargin(p, workers, Some(seconds));
    ThreeTooFewExactly(workers);
    CountCovers(DEFAULTS, seconds * SECOND, workers, software);
    r := UnsafeRun(p, workers, Some(seconds));
  }

  /**
   Agents annotate the timeout their watchdog has before it is started. With the default configuration and this
   annotation a cluster is safe exactly if its rounds and the host's life fit into what is reserved for rounds and
   rebooting; with a timeout of a minute or more, none is, not even with a working software reboot.
   */
  lemma AnnotatedBeforeStart(workers: nat, watchdogTimeout: int, software: bool)
    requires workers >= 2 && watchdogTimeout >= SECOND
    ensures var p := InCluster(DEFAULTS, watchdogTimeout, workers, software);
            var annotation := Some(AnnotatedSeconds(Dog.NEW_WD.timeout));
            && (Safe(p, workers, annotation) <==>
                p.batches * (10 * SECOND) + Iso.LifeAfterTrigger(p) + SECOND - 1
                <= Max(BatchesLeft(workers, workers) * (10 * SECOND), 30 * SECOND) + 30 * SECOND)
            && (watchdogTimeout >= 60 * SECOND ==> !Safe(p, workers, annotation))
  {
    var p := InCluster(DEFAULTS, watchdogTimeout, workers, software);
    var annotation := Some(AnnotatedSeconds(Dog.NEW_WD.timeout));
    AgentAdmissible(DEFAULTS, watchdogTimeout, workers, software);
    RunOnceSafetyExactly(p, workers, annotation);
    DefaultMargin(p, workers, annotation);
    assert AnnotatedTimeout(annotation) == 0;
    AtMostOneMore(workers);
  }

  // a check every second, an API timeout of a second, threshold one, batches of 30s, and a watchdog timeout of 30s
  const TIGHT := Config(SECOND, SECOND, 1, 15 * SECOND, 15 * SECOND, None)

  /**
   An admissible configuration that is not safe for two workers, with all batches counted and the right timeout
   annotated.
   */
  lemma TightConfigIsUnsafe(workers: nat, software: bool) returns (r: Story)
    requires workers == 2
    ensures var p := InCluster(TIGHT, 30 * SECOND, workers, software);
            && p.batches == BatchesLeft(workers, workers)
            && Happens(r, p, workers, Some(30)) && Iso.Arises(r.start.process, p) && r.Undisturbed(p)
            && !r.removing.process.Dead()
  {
    var p := InCluster(TIGHT, 30 * SECOND, workers, software);
    AgentAdmissible(TIGHT, 30 * SECOND, workers, software);
    assert p.batches == 1 == BatchesLeft(workers, workers);
    assert Iso.RoundTime(p) == 30 * SECOND && Iso.WaitsInSilence(p) == 30;
    MarginOfValidConfigs(p, workers, Some(30));
    r := UnsafeRun(p, workers, Some(30));
  }

  // a check every 20s, an API timeout of a second, threshold one and batches of 2s
  const SPARSE := Config(20 * SECOND, SECOND, 1, SECOND, SECOND, None)

  /**
   What the silence limit does not divide: with checks 20s apart a round ends at the latest 26s after the last answer,
   so that two workers with a timeout of 30s are safe even though no timeout is annotated.
   */
  lemma SparseChecksAreSafe(workers: nat, software: bool)
    requires workers == 2
    ensures Safe(InCluster(SPARSE, 30 * SECOND, workers, software), workers, Some(0))
  {
    var p := InCluster(SPARSE, 30 * SECOND, workers, software);
    AgentAdmissible(SPARSE, 30 * SECOND, workers, software);
    assert p.batches == 1 == BatchesLeft(workers, workers);
    assert Iso.WaitsInSilence(p) == 1 && Iso.Cycle(p) == 23 * SECOND && Iso.LastQuietEnd(p) == 26 * SECOND;
    MarginExactly(p, workers, Some(0));
    RunOnceSafetyExactly(p, workers, Some(0));
  }
}
