/**
 Exactly what every handler of the manager does, for every outcome of its writes: which conditions advance the phase,
 what reaches the server, and which error is reported.
 */
module HandlersExactly {
  import opened Basics
  import opened Taints
  import opened Remediation
  import opened RemediationInvariant
  import opened RemediationRuns

  /** The handlers work on a node that was just read. */
  predicate FreshNode(c: Call) {
    c.node == c.server.node && c.finalizer == c.server.finalizer && c.server.present
  }

  predicate NoExecuteOn(node: Node) {
    Holds(node.taints, RemediationKey, NoExecute)
  }

  predicate UnschedulableOn(node: Node) {
    Holds(node.taints, UnschedulableKey, NoSchedule)
  }

  predicate OutOfServiceOn(node: Node) {
    Holds(node.taints, OutOfServiceKey, NoExecute)
  }

  lemma TaintsOn(node: Node)
    ensures Has(node.taints, NODE_NO_EXECUTE) == NoExecuteOn(node)
    ensures Has(node.taints, NODE_UNSCHEDULABLE) == UnschedulableOn(node)
    ensures Has(node.taints, OUT_OF_SERVICE) == OutOfServiceOn(node)
  {
    HasMeansHolds(node.taints, NODE_NO_EXECUTE);
    HasMeansHolds(node.taints, NODE_UNSCHEDULABLE);
    HasMeansHolds(node.taints, OUT_OF_SERVICE);
  }

  // ---------- taints and conditions ----------

  /** A missing taint is appended with the current time; the server gets it if the write is stored. */
  lemma AddTaintExactly(c: Call, taint: Taint, now: int, w: Write)
    requires FreshNode(c)
    ensures var o, missing := AddTaint(c, taint, now, w), !Holds(c.node.taints, taint.key, taint.effect);
            var longer := c.node.taints + [Taint(taint.key, taint.value, taint.effect, Some(now))];
            && o.call.server == c.server.(node := c.node.(taints := o.call.server.node.taints))
            && o.call.server.node.taints == (if missing && w.Stored() then longer else c.node.taints)
            && o.err == (if missing && !w.Done? then Err(w.message) else NoError)
  {
    HasMeansHolds(c.node.taints, taint);
  }

  /** All taints with the key and the effect go, and only those. */
  lemma RemoveTaintExactly(c: Call, taint: Taint, w: Write)
    requires FreshNode(c)
    ensures var o, there := RemoveTaint(c, taint, w), Holds(c.node.taints, taint.key, taint.effect);
            && o.call.server == c.server.(node := c.server.node.(taints := o.call.server.node.taints))
            && (there && w.Stored() ==>
                  forall x :: x in o.call.server.node.taints <==>
                              x in c.node.taints && (x.key != taint.key || x.effect != taint.effect))
            && (!(there && w.Stored()) ==> o.call.server == c.server)
            && o.err == (if there && !w.Done? then Err(w.message) else NoError)
  {
    HasMeansHolds(c.node.taints, taint);
  }

  /** What Processing and Succeeded are to be for a reason. */
  function Wanted(reason: Reason): (ConditionStatus, ConditionStatus) {
    if reason == RemediationStarted then (ConditionTrue, ConditionUnknown)
    else if reason == RemediationFinishedSuccessfully then (ConditionFalse, ConditionTrue)
    else (ConditionFalse, ConditionFalse)
  }

  predicate Shows(m: Conditions, statuses: (ConditionStatus, ConditionStatus)) {
    && m.processing.Some? && m.processing.value.status == statuses.0
    && m.succeeded.Some? && m.succeeded.value.status == statuses.1
  }

  /** Both conditions show what the reason asks for; if they did before, they keep their reason. */
  lemma ConditionsExactly(st: Status, reason: Reason)
    ensures var updated := UpdateConditions(st, reason);
            && Shows(updated.conditions, Wanted(reason))
            && (if Shows(st.conditions, Wanted(reason)) then updated == st
                else
                  && updated == st.(conditions := updated.conditions)
                  && updated.conditions.disabled == st.conditions.disabled
                  && updated.conditions.processing.value.reason == updated.conditions.succeeded.value.reason == reason)
  {
  }

  // ---------- the finalizer and the time ----------

  /** The response to a confirmed update replaces the status in memory, except for what it lacks and decoding keeps. */
  lemma FinalizerUpdate(c: Call, env: Env)
    requires FreshNode(c) && !c.server.meta.deleted
    ensures var o := AddFinalizer(c, env);
            && o.call.finalizer && o.call.server == c.server.(finalizer := c.finalizer || env.finalizerWrite.Stored())
            && (!env.finalizerWrite.Done? ==> o.call.status == c.status)
            && (env.finalizerWrite.Done? && !env.keepsAbsent ==> o.call.status == c.server.status)
            && (env.finalizerWrite.Done? && env.keepsAbsent ==>
                  && o.call.status.phase in {c.server.status.phase, c.status.phase}
                  && (c.server.status.phase.Some? ==> o.call.status.phase == c.server.status.phase)
                  && var stored := c.server.status.conditions;
                     o.call.status.conditions == if stored != NO_CONDITIONS then stored else c.status.conditions)
  {
  }

  /** A time that is set is never computed again, and a time that is not set would be dereferenced. */
  lemma TimeSetOnce(c: Call, env: Env)
    ensures c.status.timeAssumedRebooted.Some? ==> SetTimeAssumedRebooted(c, env) == Outcome(c, NoError)
    ensures !c.crashed ==> (WaitForNodeRebooted(c, env).call.crashed <==> c.status.timeAssumedRebooted.None?)
    ensures !c.crashed ==>
              (UseOutOfServiceTaint(c, env).call.crashed <==>
               && c.status.timeAssumedRebooted.None? && !env.drained
               && (OutOfServiceOn(c.node) || env.outOfServiceAdd.Done?))
  {
    TaintsOn(c.node);
  }

  // ---------- the handlers ----------

  /** Everything that has to be in place before the phase advances to Pre-Reboot-Completed. */
  predicate ReadyToWait(c: Call, env: Env) {
    && env.rebootCapable && c.finalizer && (NoExecuteOn(c.node) || env.noExecuteWrite.Done?)
    && c.node.unschedulable && UnschedulableOn(c.node) && env.duration.Some?
  }

  lemma PrepareRebootExactly(c: Call, env: Env)
    requires FreshNode(c) && c.status.phase.None? && c.status.timeAssumedRebooted.None?
    requires c.server.status.phase.None? && c.server.status.timeAssumedRebooted.None?
    ensures var o, s := PrepareReboot(c, env), PrepareReboot(c, env).call.server;
            var fences := env.rebootCapable && c.finalizer;
            var tainted := NoExecuteOn(c.node) || env.noExecuteWrite.Done?;
            && o.call.status.phase == (if ReadyToWait(c, env) then Some(PreRebootCompleted) else None)
            && s.finalizer == (c.finalizer || (env.rebootCapable && !s.meta.deleted && env.finalizerWrite.Stored()))
            && (Has(s.node.taints, NODE_NO_EXECUTE) <==> NoExecuteOn(c.node) || (fences && env.noExecuteWrite.Stored()))
            && (s.node.unschedulable <==>
                c.node.unschedulable || (fences && tainted && env.unschedulableWrite.Stored()))
            && (s.node.taints == c.node.taints ||
                s.node.taints == c.node.taints + [NODE_NO_EXECUTE.(timeAdded := Some(env.now))])
  {
    TaintsOn(c.node);
    var added := NODE_NO_EXECUTE.(timeAdded := Some(env.now));
    HasAppend(c.node.taints, added, NODE_NO_EXECUTE);
    HasAppend(c.node.taints, added, NODE_UNSCHEDULABLE);
  }

  /** The error a preparation reports. */
  lemma PrepareRebootError(c: Call, env: Env)
    requires FreshNode(c) && c.status.timeAssumedRebooted.None?
    ensures PrepareReboot(c, env).err ==
            if !env.rebootCapable then Err(NotRebootCapable)
            else if !c.finalizer then
              if c.server.meta.deleted || env.finalizerWrite.Done? || env.finalizerWrite.Conflict? then NoError
              else Err(env.finalizerWrite.message)
            else if !NoExecuteOn(c.node) && !env.noExecuteWrite.Done? then Err(env.noExecuteWrite.message)
            else if !c.node.unschedulable then
              if env.unschedulableWrite.Done? || env.unschedulableWrite.Conflict? then NoError
              else Err(env.unschedulableWrite.message)
            else if UnschedulableOn(c.node) && env.duration.None? then Err(NoRebootDuration)
            else NoError
  {
    TaintsOn(c.node);
    HasAppend(c.node.taints, NODE_NO_EXECUTE.(timeAdded := Some(env.now)), NODE_UNSCHEDULABLE);
  }

  /** The workloads are gone: the pods were deleted, or the node drained and the taint for it taken back. */
  predicate WorkloadsRemoved(node: Node, strategy: Strategy, env: Env) {
    match strategy
    case ResourceDeletion => env.podDeletion.Done?
    case OutOfServiceTaint =>
      (OutOfServiceOn(node) || env.outOfServiceAdd.Done?) && env.drained && env.outOfServiceRemove.Done?
    case UnsupportedStrategy => false
  }

  lemma OutOfServiceOutcome(c: Call, env: Env)
    requires FreshNode(c) && c.status.timeAssumedRebooted.Some?
    ensures var r := UseOutOfServiceTaint(c, env);
            && r.call.status == c.status && r.call.removal && r.call.crashed == c.crashed
            && (r.err == NoError && !r.wait <==> WorkloadsRemoved(c.node, OutOfServiceTaint, env))
            && r.err == RemovalError(c, OutOfServiceTaint, env)
  {
    TaintsOn(c.node);
    HasAppend(c.node.taints, OUT_OF_SERVICE.(timeAdded := Some(env.now)), OUT_OF_SERVICE);
  }

  /**
   Fencing is completed, and success reported, if and only if the workloads were removed; until then the status stays.
   Draining is waited for until 300s after the assumed reboot.
   */
  lemma RemovalExactly(c: Call, strategy: Strategy, env: Env)
    requires FreshNode(c) && strategy != UnsupportedStrategy
    requires c.status.phase == Some(RebootCompleted) && c.status.timeAssumedRebooted.Some?
    ensures var o, removed := HandleRebootCompletedPhase(c, strategy, env), WorkloadsRemoved(c.node, strategy, env);
            && o.call.removal && o.call.crashed == c.crashed && o.err == RemovalError(c, strategy, env)
            && (o.call.status.phase == Some(FencingCompleted) <==> removed)
            && (removed ==> Shows(o.call.status.conditions, (ConditionFalse, ConditionTrue)))
            && (!removed ==> o.call.status == c.status)
  {
    if strategy == OutOfServiceTaint {
      OutOfServiceOutcome(c, env);
    }
  }

  function RemovalError(c: Call, strategy: Strategy, env: Env): Error
    requires c.status.timeAssumedRebooted.Some?
  {
    if strategy == ResourceDeletion then
      if env.podDeletion.Done? then NoError else Err(env.podDeletion.message)
    else if !OutOfServiceOn(c.node) && !env.outOfServiceAdd.Done? then Err(env.outOfServiceAdd.message)
    else if !env.drained then
      if env.now < c.status.timeAssumedRebooted.value + 300 * SECOND then NoError else Err(NotDrained)
    else if env.outOfServiceRemove.Done? then NoError
    else Err(env.outOfServiceRemove.message)
  }

  /** The out-of-service taint on the server while workloads are being removed. */
  lemma OutOfServiceExactly(c: Call, env: Env)
    requires FreshNode(c) && c.status.timeAssumedRebooted.Some?
    ensures var node := UseOutOfServiceTaint(c, env).call.server.node;
            Has(node.taints, OUT_OF_SERVICE) <==>
            var there := OutOfServiceOn(c.node);
            && (there || env.outOfServiceAdd.Stored())
            && !((there || env.outOfServiceAdd.Done?) && env.drained && env.outOfServiceRemove.Stored())
  {
    TaintsOn(c.node);
    var added := c.node.taints + [OUT_OF_SERVICE.(timeAdded := Some(env.now))];
    HasAppend(c.node.taints, OUT_OF_SERVICE.(timeAdded := Some(env.now)), OUT_OF_SERVICE);
    HasWithout(c.node.taints, OUT_OF_SERVICE, OUT_OF_SERVICE);
    HasWithout(added, OUT_OF_SERVICE, OUT_OF_SERVICE);
  }

  /** The node is schedulable again, and its unschedulable taint gone. */
  predicate Schedulable(c: Call, env: Env) {
    (c.node.unschedulable ==> env.unschedulableWrite.Done?) && !UnschedulableOn(c.node)
  }

  /**
   Recovery step by step: the flag goes with its write; the NoExecute taint only after that, and once the unschedulable
   taint is gone; the finalizer only after both, and the remediation with it unless others hold it.
   */
  lemma RecoverExactly(c: Call, env: Env)
    requires FreshNode(c) && c.server.meta.deleted
    ensures var s := RecoverNode(c, env).call.server;
            var untainted := NoExecuteOn(c.node) ==> env.noExecuteWrite.Done?;
            && (s.node.unschedulable <==> c.node.unschedulable && !env.unschedulableWrite.Stored())
            && (Has(s.node.taints, NODE_NO_EXECUTE) <==>
                NoExecuteOn(c.node) && !(Schedulable(c, env) && env.noExecuteWrite.Stored()))
            && (s.finalizer <==> c.finalizer && !(Schedulable(c, env) && untainted && env.finalizerWrite.Stored()))
            && (s.present <==> s.finalizer == c.finalizer || s.meta.held)
  {
    TaintsOn(c.node);
    HasWithout(c.node.taints, NODE_NO_EXECUTE, NODE_NO_EXECUTE);
  }

  lemma RecoverError(c: Call, env: Env)
    requires FreshNode(c)
    ensures RecoverNode(c, env).err ==
            if c.node.unschedulable && !env.unschedulableWrite.Done? then
              if env.unschedulableWrite.Conflict? then NoError else Err(env.unschedulableWrite.message)
            else if UnschedulableOn(c.node) then NoError
            else if NoExecuteOn(c.node) && !env.noExecuteWrite.Done? then Err(env.noExecuteWrite.message)
            else if c.finalizer && !env.finalizerWrite.Done? then Err(env.finalizerWrite.message)
            else NoError
  {
    TaintsOn(c.node);
  }

  // ---------- the whole reconcile ----------

  /** What is stored at the end of a reconcile that decided on `st` and changed nothing else. */
  function StatusStored(s: Server, st: Status, env: Env): Server {
    if s.present && env.statusWrite.Stored() then s.(status := st) else s
  }

  /** A remediation that NodeHealthCheck has timed out, and not deleted, is neither processing nor succeeded. */
  lemma StoppedExactly(s: Server, strategy: Strategy, env: Env)
    requires env.config.Found? && s.meta.timedOut && !s.meta.deleted
    ensures var c := ReconcileManager(s, strategy, env);
            && !c.removal && c.server == StatusStored(s, c.status, env)
            && c.status == s.status.(conditions := c.status.conditions)
            && Shows(c.status.conditions, (ConditionFalse, ConditionFalse))
  {
  }

  /** Without configuration the remediation is disabled, and nothing else happens; nor if it cannot be read. */
  lemma DisabledExactly(s: Server, strategy: Strategy, env: Env)
    requires !env.config.Found?
    ensures var c := ReconcileManager(s, strategy, env);
            && !c.removal && c.server == StatusStored(s, c.status, env)
            && c.status == (if env.config.ReadFailed? then s.status
                            else s.status.(conditions :=
                              s.status.conditions.(disabled := Some(Condition(ConditionTrue, ConfigurationNotFound)))))
  {
  }

  /** Unless completed, a remediation that goes on is shown as processing. */
  lemma StartedExactly(s: Server)
    ensures Started(s) == Begin(s).(status := Started(s).status)
    ensures s.status.phase == Some(FencingCompleted) ==> Started(s).status == s.status
    ensures s.status.phase != Some(FencingCompleted) ==>
              Shows(Started(s).status.conditions, (ConditionTrue, ConditionUnknown)) &&
              Started(s).status == s.status.(conditions := Started(s).status.conditions)
  {
  }

  predicate Proceeds(s: Server, env: Env) {
    env.config.Found? && (s.meta.timedOut ==> s.meta.deleted)
  }

  /** A node that does not exist or is excluded, and an unknown strategy or phase, are left alone. */
  lemma SkippedExactly(s: Server, strategy: Strategy, env: Env)
    requires Proceeds(s, env)
    ensures var c := ReconcileBody(s, strategy, env);
            && (env.nodeRead.NotFound? || (env.nodeRead.Found? && env.excluded) ||
                strategy == UnsupportedStrategy || (s.status.phase.Some? && s.status.phase.value.OtherPhase?) ==>
                  c.server == s.(status := c.server.status) && !c.removal && c.server.status.phase == s.status.phase)
            && (env.nodeRead.Found? && env.excluded ==> c == Started(s))
  {
  }

  /** A node that does not exist is reported, unless the response to the patch of the error overwrites that. */
  lemma NodeNotFoundExactly(s: Server, strategy: Strategy, env: Env)
    requires Proceeds(s, env) && env.nodeRead.NotFound? && s.present
    requires s.status.lastError == env.nodeRead.message || !env.lastErrorWrite.Done?
    ensures var st := ReconcileBody(s, strategy, env).status;
            Shows(st.conditions, (ConditionFalse, ConditionFalse)) && st.lastError == env.nodeRead.message
  {
  }

  /** If the node cannot be read for another reason, the remediation goes on being shown as processing. */
  lemma NodeUnreadableExactly(s: Server, strategy: Strategy, env: Env)
    requires Proceeds(s, env) && env.nodeRead.ReadFailed? && s.present
    requires s.status.lastError == env.nodeRead.message || !env.lastErrorWrite.Done?
    ensures ReconcileBody(s, strategy, env)
            == Started(s).(status := Started(s).status.(lastError := env.nodeRead.message),
                           server := ReconcileBody(s, strategy, env).server)
  {
  }

  /** Which handler a reconcile runs, by the persisted phase; an unsupported strategy's error is never reported. */
  lemma DispatchExactly(c: Call, strategy: Strategy, env: Env)
    ensures strategy == UnsupportedStrategy ==> Remediate(c, strategy, env) == Outcome(c, NoError)
    ensures strategy != UnsupportedStrategy ==>
              Remediate(c, strategy, env) ==
              match c.status.phase
              case None => PrepareReboot(c, env)
              case Some(PreRebootCompleted) => WaitForNodeRebooted(c, env)
              case Some(RebootCompleted) => HandleRebootCompletedPhase(c, strategy, env)
              case Some(FencingCompleted) => if c.server.meta.deleted then RecoverNode(c, env) else Outcome(c, NoError)
              case Some(OtherPhase(_)) => Outcome(c, Err(UnknownPhaseText))
  {
  }

  /**
   What becomes of a handler's outcome. The error text is patched first, and the response to a patch that changes it
   overwrites what is in memory: a phase that was persisted before then stays, and a first phase stays in memory only
   if decoding keeps what the response does not have. The rest goes with the status write.
   */
  lemma PersistedExactly(s: Server, o: Outcome, env: Env)
    requires o.call.server.present && o.call.server.status == s.status
    ensures var t := FinishStatus(UpdateLastError(o, env), env).server;
            var text := if o.err.NoError? then NoText else o.err.message;
            var overwritten := o.call.status.lastError != text && env.lastErrorWrite.Done?;
            var lost := overwritten && (s.status.phase.Some? || !env.keepsAbsent);
            && t == o.call.server.(status := t.status)
            && t.status.phase == (if env.statusWrite.Stored() && !lost then o.call.status.phase else s.status.phase)
            && (env.statusWrite.Stored() && env.lastErrorWrite.Done? && text != NoText ==> t.status.lastError == text)
            && (env.statusWrite.Stored() && !env.lastErrorWrite.Done? ==> t.status.lastError == text)
  {
  }

  // ---------- runs ----------

  /** In every run the step into Fencing-Completed is a reconcile that has removed the workloads. */
  lemma CompletedOnlyAfterRemoval(states: seq<State>, events: seq<Event>, strategy: Strategy, k: nat)
    requires IsRun(states, events, strategy) && k < |events|
    requires states[k].server.status.phase != Some(FencingCompleted)
    requires states[k + 1].server.status.phase == Some(FencingCompleted)
    ensures events[k].Manager? && states[k].server.status.phase == Some(RebootCompleted)
    ensures WorkloadsRemoved(states[k].server.node, strategy, events[k].env)
  {
    ReachableInv(states, events, strategy, k);
    RunStep(states, events, strategy, k);
    var s, env := states[k].server, events[k].env;
    CompletedStep(s, strategy, env);
  }

  lemma CompletedStep(s: Server, strategy: Strategy, env: Env)
    requires ServerInv(s, strategy) && s.present && s.status.phase == Some(RebootCompleted)
    requires ReconcileManager(s, strategy, env).server.status.phase == Some(FencingCompleted)
    ensures WorkloadsRemoved(s.node, strategy, env)
  {
    if ReachesHandler(s, env) {
      StartedOk(s, strategy);
      RemediateOk(s, Started(s), strategy, env);
      CallFinished(s, Remediate(Started(s), strategy, env), strategy, env);
      if strategy != UnsupportedStrategy {
        RemovalExactly(Started(s), strategy, env);
      }
    } else {
      WithoutHandler(s, strategy, env);
    }
  }

  /**
   A deleted, completed remediation loses its finalizer as soon as its writes succeed and the unschedulable taint is
   gone, whether or not it was timed out before.
   */
  lemma DeletedIsRecovered(s: Server, strategy: Strategy, env: Env)
    requires s.present && s.meta.deleted && s.finalizer && s.status.phase == Some(FencingCompleted)
    requires strategy != UnsupportedStrategy && env.config.Found? && env.nodeRead.Found? && !env.excluded
    requires env.unschedulableWrite.Done? && env.noExecuteWrite.Done? && env.finalizerWrite.Done?
    requires !UnschedulableOn(s.node)
    ensures var t := ReconcileManager(s, strategy, env).server;
            !t.finalizer && !t.node.unschedulable && !NoExecuteOn(t.node) && (t.present <==> s.meta.held)
  {
    var c := Started(s);
    RecoverExactly(c, env);
    TaintsOn(RecoverNode(c, env).call.server.node);
  }
}
