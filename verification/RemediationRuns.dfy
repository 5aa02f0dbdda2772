/**
 Whole runs of the remediation protocol: the manager's reconciles interleaved with the node controller, NodeHealthCheck,
 other users of the node's taints, and time.
 */
module RemediationRuns {
  import opened Basics
  import opened Taints
  import opened Remediation
  import opened RemediationInvariant

  datatype State = State(now: int, server: Server)

  datatype Event =
    | Manager(env: Env)
    | NodeController(taints: seq<Taint>) // brings the unschedulable taint in line with the node's spec
    | ForeignEdit(taints: seq<Taint>)    // somebody changes taints that are not the operator's
    | NhcTimeout(on: bool)               // the time-out annotation is set or removed
    | DeleteRequest
    | OthersLetGo                        // the last finalizer of others is removed
    | Tick(to: int)

  predicate Enabled(s: State, e: Event) {
    match e
    case Manager(env) => s.server.present && env.now == s.now
    case NodeController(taints) =>
      && SameTaintsBut(s.server.node.taints, taints, NODE_UNSCHEDULABLE)
      && (Has(taints, NODE_UNSCHEDULABLE) <==> s.server.node.unschedulable)
    case ForeignEdit(taints) =>
      && Has(taints, NODE_UNSCHEDULABLE) == Has(s.server.node.taints, NODE_UNSCHEDULABLE)
      && Has(taints, NODE_NO_EXECUTE) == Has(s.server.node.taints, NODE_NO_EXECUTE)
      && Has(taints, OUT_OF_SERVICE) == Has(s.server.node.taints, OUT_OF_SERVICE)
    case Tick(to) => to >= s.now
    case _ => s.server.present
  }

  function WithMeta(s: Server, meta: Meta): Server {
    s.(meta := meta, present := Survives(meta, s.finalizer))
  }

  function Next(s: State, e: Event, strategy: Strategy): State {
    match e
    case Manager(env) => s.(server := ReconcileManager(s.server, strategy, env).server)
    case NodeController(taints) => s.(server := s.server.(node := s.server.node.(taints := taints)))
    case ForeignEdit(taints) => s.(server := s.server.(node := s.server.node.(taints := taints)))
    case NhcTimeout(on) => s.(server := s.server.(meta := s.server.meta.(timedOut := on)))
    case DeleteRequest => s.(server := WithMeta(s.server, s.server.meta.(deleted := true)))
    case OthersLetGo => s.(server := WithMeta(s.server, s.server.meta.(held := false)))
    case Tick(to) => s.(now := to)
  }

  /** A remediation nobody has worked on yet, and a node without the out-of-service taint. */
  predicate Init(s: State) {
    && s.server.present && !s.server.meta.deleted && !s.server.finalizer
    && s.server.status == NEW_STATUS
    && !Has(s.server.node.taints, OUT_OF_SERVICE)
  }

  ghost predicate IsRun(states: seq<State>, events: seq<Event>, strategy: Strategy) {
    && |states| == |events| + 1
    && Init(states[0])
    && forall i :: 0 <= i < |events| ==>
                     Enabled(states[i], events[i]) && states[i + 1] == Next(states[i], events[i], strategy)
  }

  /** The invariant of runs: the server's, and resources are removed only after the time assumed for the reboot. */
  predicate Inv(s: State, strategy: Strategy) {
    && ServerInv(s.server, strategy)
    && (Rank(s.server.status.phase) >= 2 ==> s.server.status.timeAssumedRebooted.value <= s.now)
  }

  /** A status write that completes the reboot phase happens only once that time has come. */
  lemma RebootCompletedInTime(s: Server, strategy: Strategy, env: Env)
    requires ServerInv(s, strategy) && s.present && Rank(s.status.phase) < 2
    ensures var c := ReconcileManager(s, strategy, env);
            Rank(c.server.status.phase) >= 2 ==>
              s.status.timeAssumedRebooted.Some? && s.status.timeAssumedRebooted.value <= env.now
  {
    if ReachesHandler(s, env) {
      StartedOk(s, strategy);
      var c := Started(s);
      RemediateOk(s, c, strategy, env);
      CallFinished(s, Remediate(c, strategy, env), strategy, env);
      if s.status.phase == Some(PreRebootCompleted) {
        WaitOk(s, c, strategy, env);
      } else {
        NotPastPreReboot(s, c, strategy, env);
      }
    } else {
      WithoutHandler(s, strategy, env);
    }
  }

  lemma NotPastPreReboot(s: Server, c: Call, strategy: Strategy, env: Env)
    requires HandlerStart(s, c, strategy) && s.status.phase.None?
    ensures Rank(Remediate(c, strategy, env).call.status.phase) <= 1
  {
    PrepareRebootOk(s, c, strategy, env);
  }

  lemma StepKeepsInv(s: State, e: Event, strategy: Strategy)
    requires Inv(s, strategy) && Enabled(s, e)
    ensures Inv(Next(s, e, strategy), strategy)
    ensures StepsTo(s.server.status, Next(s, e, strategy).server.status)
  {
    if e.Manager? {
      ManagerStepOk(s.server, strategy, e.env);
      if Rank(s.server.status.phase) < 2 {
        RebootCompletedInTime(s.server, strategy, e.env);
      }
    }
  }

  /** Every reachable state satisfies the invariant. */
  lemma {:induction false} ReachableInv(states: seq<State>, events: seq<Event>, strategy: Strategy, k: nat)
    requires IsRun(states, events, strategy) && k < |states|
    ensures Inv(states[k], strategy)
  {
    if k == 0 {
    } else {
      ReachableInv(states, events, strategy, k - 1);
      StepKeepsInv(states[k - 1], events[k - 1], strategy);
    }
  }

  lemma RunStep(states: seq<State>, events: seq<Event>, strategy: Strategy, k: nat)
    requires IsRun(states, events, strategy) && k < |events|
    ensures StepsTo(states[k].server.status, states[k + 1].server.status)
  {
    ReachableInv(states, events, strategy, k);
    StepKeepsInv(states[k], events[k], strategy);
  }

  // ---------- the phase machine ----------

  lemma {:induction false} ChainOnlyAdvances(statuses: seq<Status>, i: nat, k: nat)
    requires i <= k < |statuses|
    requires forall j :: 0 < j < |statuses| ==> StepsTo(statuses[j - 1], statuses[j])
    ensures Rank(statuses[i].phase) <= Rank(statuses[k].phase)
    ensures statuses[i].timeAssumedRebooted.Some? ==> statuses[k].timeAssumedRebooted == statuses[i].timeAssumedRebooted
  {
    if i == k {
    } else {
      ChainOnlyAdvances(statuses, i, k - 1);
    }
  }

  /**
   In every run the persisted phase never goes back, a reconcile advances it by at most one, an assumed reboot time
   never changes once set, and it is set exactly when the phase is past the start.
   */
  lemma PhaseOnlyAdvances(states: seq<State>, events: seq<Event>, strategy: Strategy, i: nat, k: nat)
    requires IsRun(states, events, strategy) && i <= k < |states|
    ensures var a, b := states[i].server.status, states[k].server.status;
            && Rank(a.phase) <= Rank(b.phase) <= 3
            && (k == i + 1 ==> Rank(b.phase) <= Rank(a.phase) + 1)
            && (a.timeAssumedRebooted.Some? ==> b.timeAssumedRebooted == a.timeAssumedRebooted)
            && (b.timeAssumedRebooted.Some? <==> b.phase.Some?)
  {
    ReachableInv(states, events, strategy, k);
    var statuses := seq(|states|, j requires 0 <= j < |states| => states[j].server.status);
    forall j | 0 < j < |statuses|
      ensures StepsTo(statuses[j - 1], statuses[j])
    {
      RunStep(states, events, strategy, j - 1);
    }
    ChainOnlyAdvances(statuses, i, k);
    assert k == i + 1 ==> StepsTo(statuses[k - 1], statuses[k]);
  }

  lemma RemovalOnlyInRebootCompleted(s: Server, strategy: Strategy, env: Env)
    requires ServerInv(s, strategy) && s.present && ReconcileManager(s, strategy, env).removal
    ensures s.status.phase == Some(RebootCompleted)
  {
    if ReachesHandler(s, env) {
      StartedOk(s, strategy);
      var c := Started(s);
      RemediateOk(s, c, strategy, env);
      CallFinished(s, Remediate(c, strategy, env), strategy, env);
      if s.status.phase.None? { PrepareRebootOk(s, c, strategy, env); }
      if s.status.phase == Some(PreRebootCompleted) { WaitOk(s, c, strategy, env); }
      if s.status.phase == Some(FencingCompleted) && s.meta.deleted { RecoverNodeOk(s, c, strategy, env); }
    } else {
      WithoutHandler(s, strategy, env);
    }
  }

  /**
   In every run, no reconcile dereferences a nil reboot time, and workloads are told to leave only on a fenced node
   and only when the time at which the node is assumed rebooted is not in the future.
   */
  lemma RemovalOnlyWhenSafe(states: seq<State>, events: seq<Event>, strategy: Strategy, k: nat)
    requires IsRun(states, events, strategy) && k < |events| && events[k].Manager?
    ensures !ReconcileManager(states[k].server, strategy, events[k].env).crashed
    ensures ReconcileManager(states[k].server, strategy, events[k].env).removal ==>
              && NodeFenced(states[k].server)
              && states[k].server.status.timeAssumedRebooted.Some?
              && states[k].server.status.timeAssumedRebooted.value <= states[k].now
  {
    ReachableInv(states, events, strategy, k);
    ManagerStepOk(states[k].server, strategy, events[k].env);
    if ReconcileManager(states[k].server, strategy, events[k].env).removal {
      RemovalOnlyInRebootCompleted(states[k].server, strategy, events[k].env);
    }
  }

  /**
   In every reachable state with phase Pre-Reboot-Completed or Reboot-Completed, or Fencing-Completed without
   deletion, the remediation holds its finalizer and the node is unschedulable and has the NoExecute taint.
   */
  lemma FencedInEveryRun(states: seq<State>, events: seq<Event>, strategy: Strategy, k: nat)
    requires IsRun(states, events, strategy) && k < |states|
    requires states[k].server.present && states[k].server.status.phase.Some?
    requires states[k].server.status.phase != Some(FencingCompleted) || !states[k].server.meta.deleted
    ensures NodeFenced(states[k].server)
  {
    ReachableInv(states, events, strategy, k);
  }

  /**
   In every reachable persisted status the Processing and Succeeded conditions are both absent or tell one story with
   one reason, and success is reported only once fencing is completed.
   */
  lemma ConditionsInEveryRun(states: seq<State>, events: seq<Event>, strategy: Strategy, k: nat)
    requires IsRun(states, events, strategy) && k < |states|
    ensures ConditionsAgree(states[k].server.status.conditions)
    ensures SucceededTrue(states[k].server.status.conditions) ==>
              states[k].server.status.phase == Some(FencingCompleted)
  {
    ReachableInv(states, events, strategy, k);
  }

  // ---------- the finalizer ----------

  /** A handler changes the finalizer only to add it to an undeleted new remediation, or to release a recovered node. */
  lemma HandlerAndFinalizer(s: Server, c: Call, strategy: Strategy, env: Env)
    requires HandlerStart(s, c, strategy) && s.present
    requires (s.status.phase == Some(FencingCompleted) ==> c.status == s.status)
    ensures var o := Remediate(c, strategy, env).call;
            && (!s.finalizer ==> o.server.node == s.node)
            && (!s.finalizer && o.server.finalizer ==> s.status.phase.None? && !s.meta.deleted)
            && (s.finalizer && !o.server.finalizer ==>
                  s.status.phase == Some(FencingCompleted) && s.meta.deleted && Clean(o.server.node))
  {
    if strategy != UnsupportedStrategy {
      match GetPhase(c.status) {
        case FencingStartedPhase =>
          TaintAdded(c, NODE_NO_EXECUTE, env.now, env.noExecuteWrite);
        case PreRebootCompletedPhase =>
        case RebootCompletedPhase =>
          RemovalOk(s, c, strategy, env);
        case FencingCompletedPhase =>
          if s.meta.deleted {
            RecoverNodeOk(s, c, strategy, env);
          }
      }
    }
  }

  lemma ManagerAndFinalizer(s: Server, strategy: Strategy, env: Env)
    requires ServerInv(s, strategy) && s.present
    ensures var t := ReconcileManager(s, strategy, env).server;
            && (!s.finalizer ==> t.node == s.node)
            && (!s.finalizer && t.finalizer ==> s.status.phase.None? && !s.meta.deleted)
            && (s.finalizer && !t.finalizer ==>
                  s.status.phase == Some(FencingCompleted) && s.meta.deleted && Clean(t.node))
  {
    if ReachesHandler(s, env) {
      StartedOk(s, strategy);
      RemediateOk(s, Started(s), strategy, env);
      HandlerAndFinalizer(s, Started(s), strategy, env);
      CallFinished(s, Remediate(Started(s), strategy, env), strategy, env);
    } else {
      WithoutHandler(s, strategy, env);
    }
  }

  /**
   In every run the finalizer is released only by a reconcile of a deleted remediation in phase Fencing-Completed, and
   at that moment the node is schedulable and has none of the operator's taints; no other step releases it, and
   without the finalizer no reconcile changes the node.
   */
  lemma FinalizerReleasedOnlyWhenRecovered(states: seq<State>, events: seq<Event>, strategy: Strategy, k: nat)
    requires IsRun(states, events, strategy) && k < |events|
    ensures var s, t := states[k].server, states[k + 1].server;
            && (s.finalizer && !t.finalizer ==>
                  events[k].Manager? && s.status.phase == Some(FencingCompleted) && s.meta.deleted && Clean(t.node))
            && (events[k].Manager? && !s.finalizer ==> t.node == s.node)
  {
    ReachableInv(states, events, strategy, k);
    if events[k].Manager? {
      ManagerAndFinalizer(states[k].server, strategy, events[k].env);
    }
  }

  /** A remediation that is deleted before it got the finalizer never gets it, so the manager never changes the node. */
  lemma {:induction false} DeletedEarlyNeverTouchesNode(states: seq<State>, events: seq<Event>, strategy: Strategy,
                                                        i: nat, k: nat)
    requires IsRun(states, events, strategy) && i <= k < |states|
    requires states[i].server.meta.deleted && !states[i].server.finalizer
    ensures states[k].server.meta.deleted && !states[k].server.finalizer
    ensures i < k && events[k - 1].Manager? ==> states[k].server.node == states[k - 1].server.node
  {
    if i == k {
    } else {
      DeletedEarlyNeverTouchesNode(states, events, strategy, i, k - 1);
      ReachableInv(states, events, strategy, k - 1);
      if events[k - 1].Manager? {
        ManagerAndFinalizer(states[k - 1].server, strategy, events[k - 1].env);
        ManagerStepOk(states[k - 1].server, strategy, events[k - 1].env);
      }
    }
  }

  // ---------- conservation ----------

  /** The foreign taints as their owners left them: those at the start, or of the last foreign edit. */
  function ForeignAccordingToOwners(initial: seq<Taint>, events: seq<Event>): seq<Taint> {
    if events == [] then Foreign(initial)
    else
      var last := events[|events| - 1];
      if last.ForeignEdit? then Foreign(last.taints)
      else ForeignAccordingToOwners(initial, events[..|events| - 1])
  }

  /**
   At every moment of every run, taking the operator's taints away leaves exactly what the others put there, in order.
   */
  lemma {:induction false} ForeignTaintsConserved(states: seq<State>, events: seq<Event>, strategy: Strategy, k: nat)
    requires IsRun(states, events, strategy) && k < |states|
    ensures Foreign(states[k].server.node.taints) == ForeignAccordingToOwners(states[0].server.node.taints, events[..k])
  {
    if k > 0 {
      ForeignTaintsConserved(states, events, strategy, k - 1);
      ReachableInv(states, events, strategy, k - 1);
      assert events[..k][..k - 1] == events[..k - 1];
      if events[k - 1].Manager? {
        ManagerStepOk(states[k - 1].server, strategy, events[k - 1].env);
      }
    } else {
      assert events[..0] == [];
    }
  }

  lemma {:induction false} NoForeignEdits(initial: seq<Taint>, events: seq<Event>)
    requires forall i :: 0 <= i < |events| ==> !events[i].ForeignEdit?
    ensures ForeignAccordingToOwners(initial, events) == Foreign(initial)
    decreases |events|
  {
    if events == [] {
    } else {
      NoForeignEdits(initial, events[..|events| - 1]);
    }
  }

  /**
   Conservation: a node that began schedulable and without the operator's taints ends, when the finalizer is released,
   schedulable and with exactly its original list of taints, elements and order, if nobody else edited the list;
   otherwise with exactly the list the others left.
   */
  lemma NodeConserved(states: seq<State>, events: seq<Event>, strategy: Strategy, k: nat)
    requires IsRun(states, events, strategy) && k < |events|
    requires Clean(states[0].server.node)
    requires states[k].server.finalizer && !states[k + 1].server.finalizer
    ensures states[k + 1].server.node.taints == ForeignAccordingToOwners(states[0].server.node.taints, events[..k + 1])
    ensures (forall i :: 0 <= i <= k ==> !events[i].ForeignEdit?) ==> states[k + 1].server.node == states[0].server.node
  {
    FinalizerReleasedOnlyWhenRecovered(states, events, strategy, k);
    ForeignTaintsConserved(states, events, strategy, k + 1);
    ForeignIsAll(states[k + 1].server.node.taints);
    ForeignIsAll(states[0].server.node.taints);
    if forall i :: 0 <= i <= k ==> !events[i].ForeignEdit? {
      NoForeignEdits(states[0].server.node.taints, events[..k + 1]);
    }
  }
}
