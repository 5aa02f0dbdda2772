/**
 Progress of the remediation: while nothing fails, every reconcile either brings it closer to its end or waits for
 one of a few named things.
 */
module Progress {
  import opened Basics
  import opened Taints
  import opened Remediation
  import opened RemediationInvariant
  import opened RemediationRuns

  /** Nothing fails in this reconcile. Decoding a response may still keep or clear absent fields. */
  predicate AllWell(env: Env) {
    && env.config.Found? && env.nodeRead.Found? && !env.excluded && env.rebootCapable && env.duration.Some?
    && env.finalizerWrite.Done? && env.noExecuteWrite.Done? && env.unschedulableWrite.Done? && env.podDeletion.Done?
    && env.outOfServiceAdd.Done? && env.outOfServiceRemove.Done? && env.lastErrorWrite.Done? && env.statusWrite.Done?
  }

  predicate ReadyNode(node: Node) {
    node.unschedulable && Has(node.taints, NODE_NO_EXECUTE)
  }

  /** Stages still ahead; none once the finalizer was released. */
  function Stage(s: Server): nat {
    match Rank(s.status.phase)
    case 0 => if !s.finalizer then 7 else if !ReadyNode(s.node) then 6 else 5
    case 1 => 4
    case 2 => 3
    case _ => if !s.finalizer then 0 else if s.node.unschedulable then 2 else 1
  }

  /** An old error text costs one more reconcile, because clearing it may undo the status in memory. */
  function Measure(s: Server): nat {
    Stage(s) + if s.status.lastError != NoText then 1 else 0
  }

  /** The only things a reconcile ever waits for. */
  predicate WaitsForUnschedulableTaint(s: Server) {
    s.status.phase.None? && s.finalizer && ReadyNode(s.node) && !Has(s.node.taints, NODE_UNSCHEDULABLE)
  }

  predicate WaitsForClock(s: Server, now: int) {
    && s.status.phase == Some(PreRebootCompleted)
    && s.status.timeAssumedRebooted.Some? && s.status.timeAssumedRebooted.value > now
  }

  predicate WaitsForDraining(s: Server, strategy: Strategy, env: Env) {
    s.status.phase == Some(RebootCompleted) && strategy == OutOfServiceTaint && !env.drained
  }

  predicate WaitsForDeletion(s: Server) {
    s.status.phase == Some(FencingCompleted) && !s.meta.deleted
  }

  predicate WaitsForTaintRemoval(s: Server) {
    && s.status.phase == Some(FencingCompleted) && s.meta.deleted
    && !s.node.unschedulable && Has(s.node.taints, NODE_UNSCHEDULABLE)
  }

  /** The operator's part is over: released, or deleted before it began. */
  predicate Over(s: Server) {
    Released(s) || (s.status.phase.None? && !s.finalizer && s.meta.deleted)
  }

  predicate Released(s: Server) {
    s.status.phase == Some(FencingCompleted) && !s.finalizer
  }

  predicate WaitsForOthers(s: Server, strategy: Strategy, env: Env) {
    || WaitsForUnschedulableTaint(s) || WaitsForClock(s, env.now) || WaitsForDraining(s, strategy, env)
    || WaitsForDeletion(s) || WaitsForTaintRemoval(s)
  }

  predicate Waits(s: Server, strategy: Strategy, env: Env) {
    WaitsForOthers(s, strategy, env) || Over(s)
  }

  /** Draining took longer than its time limit; this is reported as an error. */
  predicate DrainingTimedOut(s: Server, strategy: Strategy, env: Env) {
    && WaitsForDraining(s, strategy, env) && s.status.timeAssumedRebooted.Some?
    && s.status.timeAssumedRebooted.value + DELETION_TIMEOUT <= env.now
  }

  // ---------- one reconcile ----------

  /** How the end of a reconcile, without failures, leads from its handler's outcome `o` to the server `t`. */
  predicate Leads(s: Server, o: Outcome, t: Server) {
    && t == o.call.server.(status := t.status)
    && (t.present ==> t.status.lastError == MessageOf(o.err))
    && (t.present && o.call.status.lastError == MessageOf(o.err) ==> t.status == o.call.status)
    && (t.status.phase == s.status.phase || t.status.phase == o.call.status.phase)
    && (!t.present ==> t.status == s.status)
  }

  lemma Finished(s: Server, o: Outcome, strategy: Strategy, env: Env)
    requires StatusOk(s.status) && CallOk(s, o.call, strategy) && AllWell(env)
    ensures Leads(s, o, FinishStatus(UpdateLastError(o, env), env).server)
  {
    LastErrorUpdated(s, o, strategy, env);
  }

  lemma Reconciled(s: Server, strategy: Strategy, env: Env)
    requires ServerInv(s, strategy) && s.present && AllWell(env) && (s.meta.timedOut ==> s.meta.deleted)
    ensures HandlerStart(s, Started(s), strategy)
    ensures Leads(s, Remediate(Started(s), strategy, env), ReconcileManager(s, strategy, env).server)
  {
    StartedOk(s, strategy);
    RemediateOk(s, Started(s), strategy, env);
    Finished(s, Remediate(Started(s), strategy, env), strategy, env);
  }

  lemma PrepareProgresses(s: Server, c: Call, t: Server, strategy: Strategy, env: Env)
    requires HandlerStart(s, c, strategy) && s.present && AllWell(env) && s.status.phase.None?
    requires Leads(s, PrepareReboot(c, env), t)
    ensures !Waits(s, strategy, env) ==> Measure(t) < Measure(s)
    ensures Waits(s, strategy, env) ==> Stage(t) == Stage(s) && Measure(t) <= Measure(s)
  {
    TaintAdded(c, NODE_NO_EXECUTE, env.now, env.noExecuteWrite);
  }

  lemma WaitProgresses(s: Server, c: Call, t: Server, strategy: Strategy, env: Env)
    requires HandlerStart(s, c, strategy) && s.present && AllWell(env) && s.status.phase == Some(PreRebootCompleted)
    requires Leads(s, WaitForNodeRebooted(c, env), t)
    ensures !Waits(s, strategy, env) ==> Measure(t) < Measure(s)
    ensures Waits(s, strategy, env) ==> Stage(t) == Stage(s) && Measure(t) <= Measure(s)
  {
  }

  lemma RemovalProgresses(s: Server, c: Call, t: Server, strategy: Strategy, env: Env)
    requires HandlerStart(s, c, strategy) && s.present && AllWell(env) && s.status.phase == Some(RebootCompleted)
    requires strategy != UnsupportedStrategy && Leads(s, HandleRebootCompletedPhase(c, strategy, env), t)
    ensures !Waits(s, strategy, env) ==> Measure(t) < Measure(s)
    ensures Waits(s, strategy, env) ==>
              Stage(t) == Stage(s) && Measure(t) <= Measure(s) + if DrainingTimedOut(s, strategy, env) then 1 else 0
  {
    RemovalOk(s, c, strategy, env);
    ConditionsUpdated(c.status.(phase := Some(FencingCompleted)), RemediationFinishedSuccessfully);
  }

  lemma RecoverProgresses(s: Server, c: Call, t: Server, strategy: Strategy, env: Env)
    requires HandlerStart(s, c, strategy) && s.present && AllWell(env) && s.status.phase == Some(FencingCompleted)
    requires c.status == s.status && s.meta.deleted && Leads(s, RecoverNode(c, env), t)
    ensures !Waits(s, strategy, env) ==> Measure(t) < Measure(s)
    ensures Waits(s, strategy, env) ==> Stage(t) == Stage(s) && Measure(t) <= Measure(s)
  {
    RecoverNodeOk(s, c, strategy, env);
    if s.node.unschedulable {
      var node := c.node.(unschedulable := false);
      var d := c.(node := node, server := c.server.(node := node));
      TaintRemoved(d, NODE_NO_EXECUTE, env.noExecuteWrite);
    } else {
      TaintRemoved(c, NODE_NO_EXECUTE, env.noExecuteWrite);
    }
  }

  /**
   A reconcile in which nothing fails strictly lowers the measure, or it waits for exactly one of: the unschedulable
   taint to appear or to disappear, the clock, draining, or the deletion request. Waiting stays in the stage and does
   not raise the measure, except that a draining time-out adds an error to clear.
   */
  lemma StepProgresses(s: Server, strategy: Strategy, env: Env)
    requires ServerInv(s, strategy) && s.present && AllWell(env) && (s.meta.timedOut ==> s.meta.deleted)
    requires strategy != UnsupportedStrategy
    ensures var t := ReconcileManager(s, strategy, env).server;
            && (!Waits(s, strategy, env) ==> Measure(t) < Measure(s))
            && (Waits(s, strategy, env) ==>
                  && Stage(t) == Stage(s)
                  && Measure(t) <= Measure(s) + if DrainingTimedOut(s, strategy, env) then 1 else 0)
  {
    Reconciled(s, strategy, env);
    var c, t := Started(s), ReconcileManager(s, strategy, env).server;
    match GetPhase(s.status) {
      case FencingStartedPhase => PrepareProgresses(s, c, t, strategy, env);
      case PreRebootCompletedPhase => WaitProgresses(s, c, t, strategy, env);
      case RebootCompletedPhase => RemovalProgresses(s, c, t, strategy, env);
      case FencingCompletedPhase =>
        if s.meta.deleted {
          RecoverProgresses(s, c, t, strategy, env);
        }
    }
  }

  // ---------- runs ----------

  /** Nobody else's step touches the measure. */
  lemma OthersKeepMeasure(s: State, e: Event, strategy: Strategy)
    requires Enabled(s, e) && !e.Manager?
    ensures Measure(Next(s, e, strategy).server) == Measure(s.server)
  {
  }

  predicate Productive(s: State, e: Event, strategy: Strategy) {
    e.Manager? && !Waits(s.server, strategy, e.env)
  }

  predicate TimesOut(s: State, e: Event, strategy: Strategy) {
    e.Manager? && DrainingTimedOut(s.server, strategy, e.env)
  }

  ghost function ProductiveSteps(states: seq<State>, events: seq<Event>, strategy: Strategy, k: nat): nat
    requires k <= |events| <= |states|
  {
    if k == 0 then 0
    else ProductiveSteps(states, events, strategy, k - 1)
         + if Productive(states[k - 1], events[k - 1], strategy) then 1 else 0
  }

  ghost function TimeOuts(states: seq<State>, events: seq<Event>, strategy: Strategy, k: nat): nat
    requires k <= |events| <= |states|
  {
    if k == 0 then 0
    else TimeOuts(states, events, strategy, k - 1) + if TimesOut(states[k - 1], events[k - 1], strategy) then 1 else 0
  }

  ghost predicate NothingFails(states: seq<State>, events: seq<Event>, strategy: Strategy)
    requires |events| <= |states|
  {
    forall i :: 0 <= i < |events| && events[i].Manager? ==>
                  AllWell(events[i].env) && (states[i].server.meta.timedOut ==> states[i].server.meta.deleted)
  }

  lemma Accounting(s: State, e: Event, strategy: Strategy)
    requires Inv(s, strategy) && Enabled(s, e) && strategy != UnsupportedStrategy
    requires e.Manager? ==> AllWell(e.env) && (s.server.meta.timedOut ==> s.server.meta.deleted)
    ensures Measure(Next(s, e, strategy).server) + (if Productive(s, e, strategy) then 1 else 0)
            <= Measure(s.server) + (if TimesOut(s, e, strategy) then 1 else 0)
  {
    if e.Manager? {
      StepProgresses(s.server, strategy, e.env);
    } else {
      OthersKeepMeasure(s, e, strategy);
    }
  }

  /**
   In every run in which nothing fails, at most seven reconciles are productive until the finalizer is released, plus
   one for every time draining ran into its time limit; everything else is waiting.
   */
  lemma {:induction false} BoundedWork(states: seq<State>, events: seq<Event>, strategy: Strategy, k: nat)
    requires IsRun(states, events, strategy) && k <= |events| && strategy != UnsupportedStrategy
    requires NothingFails(states, events, strategy)
    ensures ProductiveSteps(states, events, strategy, k) + Measure(states[k].server)
            <= 7 + TimeOuts(states, events, strategy, k)
  {
    if k == 0 {
    } else {
      BoundedWork(states, events, strategy, k - 1);
      ReachableInv(states, events, strategy, k - 1);
      Accounting(states[k - 1], events[k - 1], strategy);
    }
  }

  /**
   In every run in which nothing fails, the remediation is completed and its finalizer released once that many
   reconciles were productive, and as soon as no stage is ahead; until then every reconcile that does not wait for
   others, of a remediation that was not deleted before it began, lowers the measure.
   */
  lemma WorkGetsDone(states: seq<State>, events: seq<Event>, strategy: Strategy, k: nat)
    requires IsRun(states, events, strategy) && k <= |events| && strategy != UnsupportedStrategy
    requires NothingFails(states, events, strategy)
    ensures ProductiveSteps(states, events, strategy, k) >= 7 + TimeOuts(states, events, strategy, k) ==>
              Released(states[k].server)
    ensures Stage(states[k].server) == 0 <==> Released(states[k].server)
    ensures k < |events| && events[k].Manager? && !Over(states[k].server) ==>
              || WaitsForOthers(states[k].server, strategy, events[k].env)
              || Measure(states[k + 1].server) < Measure(states[k].server)
  {
    BoundedWork(states, events, strategy, k);
    ReachableInv(states, events, strategy, k);
    if k < |events| && events[k].Manager? {
      StepProgresses(states[k].server, strategy, events[k].env);
    }
  }
}
