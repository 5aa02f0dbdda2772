/**
 What every reconcile of the manager keeps, for every outcome of every write.
 */
module RemediationInvariant {
  import opened Basics
  import opened Taints
  import opened Remediation

  /** How far a remediation has come. */
  function Rank(phase: Option<Phase>): nat {
    match phase
    case None => 0
    case Some(PreRebootCompleted) => 1
    case Some(RebootCompleted) => 2
    case Some(FencingCompleted) => 3
    case Some(OtherPhase(_)) => 4
  }

  /** The two conditions are both absent, or agree on one of the stories they can tell. */
  predicate ConditionsAgree(m: Conditions) {
    && (m.processing.Some? <==> m.succeeded.Some?)
    && (m.processing.Some? ==>
          && m.processing.value.reason == m.succeeded.value.reason
          && match m.processing.value.reason
             case RemediationStarted =>
               m.processing.value.status == ConditionTrue && m.succeeded.value.status == ConditionUnknown
             case RemediationFinishedSuccessfully =>
               m.processing.value.status == ConditionFalse && m.succeeded.value.status == ConditionTrue
             case ConfigurationNotFound => false
             case _ => m.processing.value.status == ConditionFalse && m.succeeded.value.status == ConditionFalse)
  }

  predicate SucceededTrue(m: Conditions) {
    m.succeeded.Some? && m.succeeded.value.status == ConditionTrue
  }

  predicate StatusOk(st: Status) {
    && Rank(st.phase) <= 3
    && (st.timeAssumedRebooted.None? <==> st.phase.None?)
    && ConditionsAgree(st.conditions)
    && (Rank(st.phase) >= 2 ==> st.conditions.processing.Some?)
    && (SucceededTrue(st.conditions) ==> st.phase == Some(FencingCompleted))
  }

  /** The persisted status moves by at most one phase, never back, and a time once set stays. */
  predicate StepsTo(a: Status, b: Status) {
    && Rank(a.phase) <= Rank(b.phase) <= Rank(a.phase) + 1
    && (a.timeAssumedRebooted.Some? ==> b.timeAssumedRebooted == a.timeAssumedRebooted)
  }

  predicate NodeFenced(s: Server) {
    s.finalizer && s.node.unschedulable && Has(s.node.taints, NODE_NO_EXECUTE)
  }

  predicate Clean(node: Node) {
    !node.unschedulable && !HasOwned(node.taints)
  }

  /**
   What the node has to look like in a phase: fenced in every phase past the start, until the deletion of a completed
   remediation; clean once the finalizer was released; and out of service only while resources are being removed.
   */
  predicate Suits(s: Server, phase: Option<Phase>, strategy: Strategy) {
    && (s.present && phase.Some? && !(phase == Some(FencingCompleted) && s.meta.deleted) ==> NodeFenced(s))
    && (s.present && phase == Some(FencingCompleted) && !s.finalizer ==> Clean(s.node))
    && (Has(s.node.taints, OUT_OF_SERVICE) ==>
          s.present && phase == Some(RebootCompleted) && strategy == OutOfServiceTaint)
  }

  predicate ServerInv(s: Server, strategy: Strategy) {
    StatusOk(s.status) && Suits(s, s.status.phase, strategy)
  }

  /** What holds of a reconcile that began at `s` while its new status is only in memory. */
  predicate CallOk(s: Server, c: Call, strategy: Strategy) {
    && !c.crashed
    && c.server.meta == s.meta && c.server.status == s.status
    && StatusOk(c.status) && StepsTo(s.status, c.status)
    && Suits(c.server, s.status.phase, strategy)
    && Suits(c.server, c.status.phase, strategy)
  }

  /** What a whole reconcile guarantees. */
  predicate Persisted(s: Server, c: Call, strategy: Strategy) {
    && !c.crashed
    && ServerInv(c.server, strategy)
    && StepsTo(s.status, c.server.status)
    && c.server.meta == s.meta
  }

  // ---------- statuses ----------

  lemma ConditionsUpdated(st: Status, reason: Reason)
    requires ConditionsAgree(st.conditions) && reason != ConfigurationNotFound
    ensures var updated := UpdateConditions(st, reason);
            && ConditionsAgree(updated.conditions) && updated.conditions.processing.Some?
            && (SucceededTrue(updated.conditions) <==> reason == RemediationFinishedSuccessfully)
            && updated == st.(conditions := updated.conditions)
  {
  }

  /** Whatever mix of persisted and new fields a response leaves in memory is a status the protocol can be in. */
  lemma DecodedStatus(stored: Status, memory: Status, keepsAbsent: bool)
    requires StatusOk(stored) && StatusOk(memory) && StepsTo(stored, memory)
    ensures var updated := Decode(stored, memory, keepsAbsent);
            && StatusOk(updated) && StepsTo(stored, updated)
            && (updated.phase == stored.phase || updated.phase == memory.phase)
  {
  }

  lemma LastErrorUpdated(s: Server, o: Outcome, strategy: Strategy, env: Env)
    requires StatusOk(s.status) && CallOk(s, o.call, strategy)
    ensures var c := UpdateLastError(o, env);
            && c.server == o.call.server.(status := c.server.status)
            && c.server.status == s.status.(lastError := c.server.status.lastError)
            && StatusOk(c.status) && StepsTo(s.status, c.status)
            && (c.status.phase == s.status.phase || c.status.phase == o.call.status.phase)
            && c.crashed == o.call.crashed && c.removal == o.call.removal
  {
    var message := MessageOf(o.err);
    DecodedStatus(s.status.(lastError := message), o.call.status.(lastError := message), env.keepsAbsent);
  }

  /** The end of a reconcile: the patch of the last error and the deferred status write. */
  lemma CallFinished(s: Server, o: Outcome, strategy: Strategy, env: Env)
    requires StatusOk(s.status) && CallOk(s, o.call, strategy)
    ensures var c := FinishStatus(UpdateLastError(o, env), env);
            && Persisted(s, c, strategy)
            && c.server == o.call.server.(status := c.server.status) && c.removal == o.call.removal
            && (c.server.status.phase == s.status.phase || c.server.status.phase == o.call.status.phase)
  {
    LastErrorUpdated(s, o, strategy, env);
  }

  // ---------- handlers ----------

  /** A reconcile about to run a handler: only the conditions in memory may differ from what is persisted. */
  predicate HandlerStart(s: Server, c: Call, strategy: Strategy) {
    && ServerInv(s, strategy)
    && c == Begin(s).(status := c.status)
    && StatusOk(c.status)
    && c.status == s.status.(conditions := c.status.conditions)
    && (s.status.phase != Some(FencingCompleted) ==>
          c.status.conditions.processing.Some? && !SucceededTrue(c.status.conditions))
  }

  /** The two lists hold the same foreign taints, and agree on the owned taints other than `t`. */
  predicate SameTaintsBut(a: seq<Taint>, b: seq<Taint>, t: Taint) {
    && Foreign(a) == Foreign(b)
    && (Matches(t, NODE_UNSCHEDULABLE) || Has(a, NODE_UNSCHEDULABLE) == Has(b, NODE_UNSCHEDULABLE))
    && (Matches(t, NODE_NO_EXECUTE) || Has(a, NODE_NO_EXECUTE) == Has(b, NODE_NO_EXECUTE))
    && (Matches(t, OUT_OF_SERVICE) || Has(a, OUT_OF_SERVICE) == Has(b, OUT_OF_SERVICE))
  }

  lemma OwnedAppended(taints: seq<Taint>, x: Taint, taint: Taint)
    requires Owned(taint) && Matches(x, taint)
    ensures SameTaintsBut(taints, taints + [x], taint) && Has(taints + [x], taint)
  {
    ForeignAppend(taints, x);
    HasAppend(taints, x, taint);
    HasAppend(taints, x, NODE_UNSCHEDULABLE);
    HasAppend(taints, x, NODE_NO_EXECUTE);
    HasAppend(taints, x, OUT_OF_SERVICE);
  }

  lemma OwnedDeleted(taints: seq<Taint>, taint: Taint)
    requires Owned(taint)
    ensures SameTaintsBut(taints, Without(taints, taint), taint) && !Has(Without(taints, taint), taint)
  {
    ForeignWithout(taints, taint);
    HasWithout(taints, taint, taint);
    HasWithout(taints, taint, NODE_UNSCHEDULABLE);
    HasWithout(taints, taint, NODE_NO_EXECUTE);
    HasWithout(taints, taint, OUT_OF_SERVICE);
  }

  /** Only the taints of the node differ, in memory and on the server. */
  predicate OnlyTaintsDiffer(c: Call, d: Call) {
    d == c.(node := c.node.(taints := d.node.taints),
            server := c.server.(node := c.server.node.(taints := d.server.node.taints)))
  }

  /** Adding an owned taint: only that taint is new, and foreign taints keep their order. */
  lemma TaintAdded(c: Call, taint: Taint, now: int, w: Write)
    requires c.node == c.server.node && Owned(taint)
    ensures var o := AddTaint(c, taint, now, w);
            && OnlyTaintsDiffer(c, o.call)
            && (o.err == NoError ==> o.call.node == o.call.server.node && Has(o.call.node.taints, taint))
            && SameTaintsBut(c.node.taints, o.call.server.node.taints, taint)
            && (Has(c.node.taints, taint) ==> Has(o.call.server.node.taints, taint))
  {
    if !Has(c.node.taints, taint) {
      TaintAppended(c, taint, taint.(timeAdded := Some(now)), w);
    }
  }

  lemma TaintAppended(c: Call, taint: Taint, x: Taint, w: Write)
    requires c.node == c.server.node && Owned(taint) && Matches(x, taint)
    ensures var d := UpdateNode(c.(node := c.node.(taints := c.node.taints + [x])), w);
            && OnlyTaintsDiffer(c, d) && Has(d.node.taints, taint)
            && (w.Done? ==> d.node == d.server.node)
            && SameTaintsBut(c.node.taints, d.server.node.taints, taint)
  {
    OwnedAppended(c.node.taints, x, taint);
  }

  lemma TaintRemoved(c: Call, taint: Taint, w: Write)
    requires c.node == c.server.node && Owned(taint)
    ensures var o := RemoveTaint(c, taint, w);
            && OnlyTaintsDiffer(c, o.call)
            && (o.err == NoError ==> o.call.node == o.call.server.node && !Has(o.call.node.taints, taint))
            && SameTaintsBut(c.node.taints, o.call.server.node.taints, taint)
            && (Has(o.call.server.node.taints, taint) ==> Has(c.node.taints, taint))
  {
    OwnedDeleted(c.node.taints, taint);
  }

  /** A deleted remediation never gets the finalizer; nothing else changes on the server, and the phase stays. */
  lemma AddFinalizerOk(s: Server, c: Call, strategy: Strategy, env: Env)
    requires HandlerStart(s, c, strategy) && c.status.phase.None?
    ensures var o := AddFinalizer(c, env).call;
            && CallOk(s, o, strategy) && !o.removal && o.status.phase.None?
            && o.server == s.(finalizer := o.server.finalizer)
            && (s.meta.deleted ==> o.server.finalizer == s.finalizer)
  {
    DecodedStatus(s.status, c.status, env.keepsAbsent);
  }

  /**
   The phase advances only on a node that can reboot and is fenced on the server, with the unschedulable taint, and
   together with the time; the node is touched only under the finalizer.
   */
  lemma PrepareRebootOk(s: Server, c: Call, strategy: Strategy, env: Env)
    requires HandlerStart(s, c, strategy) && c.status.phase.None?
    ensures var o := PrepareReboot(c, env).call;
            && CallOk(s, o, strategy) && !o.removal && Foreign(o.server.node.taints) == Foreign(s.node.taints)
            && (o.status.phase.Some? ==>
                  && env.rebootCapable && NodeFenced(o.server) && Has(o.server.node.taints, NODE_UNSCHEDULABLE)
                  && env.duration.Some?
                  && o.status.timeAssumedRebooted == Some(TruncateToSecond(env.now + env.duration.value)))
            && (o.server.node != s.node ==> s.finalizer)
  {
    AddFinalizerOk(s, c, strategy, env);
    TaintAdded(c, NODE_NO_EXECUTE, env.now, env.noExecuteWrite);
  }

  /** The reboot is taken for completed exactly when the time has come; a nil time is never dereferenced. */
  lemma WaitOk(s: Server, c: Call, strategy: Strategy, env: Env)
    requires HandlerStart(s, c, strategy) && c.status.phase == Some(PreRebootCompleted)
    ensures var o := WaitForNodeRebooted(c, env).call;
            && CallOk(s, o, strategy) && !o.removal && o.server == s
            && o.status.phase in {Some(PreRebootCompleted), Some(RebootCompleted)}
            && (o.status.phase == Some(RebootCompleted) <==> s.status.timeAssumedRebooted.value <= env.now)
  {
  }

  /** What removing the node's resources guarantees. */
  predicate RemovalPost(s: Server, c: Call, r: Removal, strategy: Strategy) {
    && r.call == c.(removal := true, node := r.call.node, server := s.(node := r.call.server.node))
    && NodeFenced(r.call.server)
    && (Has(r.call.server.node.taints, OUT_OF_SERVICE) ==> strategy == OutOfServiceTaint)
    && (r.err == NoError && !r.wait ==> !Has(r.call.server.node.taints, OUT_OF_SERVICE))
    && Foreign(r.call.server.node.taints) == Foreign(s.node.taints)
  }

  lemma OutOfServiceOk(s: Server, c: Call, env: Env)
    requires HandlerStart(s, c, OutOfServiceTaint) && c.status.phase == Some(RebootCompleted) && s.present
    ensures RemovalPost(s, c, UseOutOfServiceTaint(c, env), OutOfServiceTaint)
  {
    var d := c.(removal := true);
    TaintAdded(d, OUT_OF_SERVICE, env.now, env.outOfServiceAdd);
    var added := AddTaint(d, OUT_OF_SERVICE, env.now, env.outOfServiceAdd);
    if added.err == NoError && env.drained {
      TaintRemoved(added.call, OUT_OF_SERVICE, env.outOfServiceRemove);
    }
  }

  lemma RemovalOk(s: Server, c: Call, strategy: Strategy, env: Env)
    requires HandlerStart(s, c, strategy) && c.status.phase == Some(RebootCompleted)
    requires strategy != UnsupportedStrategy && s.present
    ensures RemovalPost(s, c, RemoveNodeResources(c, strategy, env), strategy)
  {
    if strategy == OutOfServiceTaint {
      OutOfServiceOk(s, c, env);
    }
  }

  /** Success is reported exactly with completed fencing, on a fenced node that is no longer out of service. */
  lemma HandleRebootCompletedOk(s: Server, c: Call, strategy: Strategy, env: Env)
    requires HandlerStart(s, c, strategy) && c.status.phase == Some(RebootCompleted)
    requires strategy != UnsupportedStrategy && s.present
    ensures var o := HandleRebootCompletedPhase(c, strategy, env).call;
            && CallOk(s, o, strategy) && Foreign(o.server.node.taints) == Foreign(s.node.taints)
            && (SucceededTrue(o.status.conditions) <==> o.status.phase == Some(FencingCompleted))
            && (o.status.phase == Some(FencingCompleted) ==>
                  NodeFenced(o.server) && !Has(o.server.node.taints, OUT_OF_SERVICE))
  {
    RemovalOk(s, c, strategy, env);
    ConditionsUpdated(c.status.(phase := Some(FencingCompleted)), RemediationFinishedSuccessfully);
  }

  /** Marking the node schedulable, and what is left to do after it. */
  lemma ReleaseOk(s: Server, c: Call, strategy: Strategy, env: Env)
    requires ServerInv(s, strategy) && s.present && s.meta.deleted
    requires c.status.phase == s.status.phase == Some(FencingCompleted)
    requires c.server == s.(node := c.node) && c.status == s.status && !c.crashed && !c.removal
    requires c.finalizer == s.finalizer
    requires Clean(c.node) && c.finalizer
    ensures var o := RemoveFinalizer(c, env).call;
            CallOk(s, o, strategy) && !o.removal && o.server.node == c.node
  {
    DecodedStatus(s.status, c.status, env.keepsAbsent);
  }

  lemma RecoverNodeOk(s: Server, c: Call, strategy: Strategy, env: Env)
    requires HandlerStart(s, c, strategy) && s.present && c.status.phase == Some(FencingCompleted) && s.meta.deleted
    requires c.status == s.status
    ensures var o := RecoverNode(c, env).call;
            && CallOk(s, o, strategy) && !o.removal && Foreign(o.server.node.taints) == Foreign(s.node.taints)
            && (s.finalizer && !o.server.finalizer ==> Clean(o.server.node))
  {
    var schedulable := MarkNodeAsSchedulable(c, env);
    if !(c.node.unschedulable && env.unschedulableWrite != Done) && !Has(schedulable.node.taints, NODE_UNSCHEDULABLE) {
      TaintRemoved(schedulable, NODE_NO_EXECUTE, env.noExecuteWrite);
      var untainted := RemoveTaint(schedulable, NODE_NO_EXECUTE, env.noExecuteWrite);
      if untainted.err == NoError && untainted.call.finalizer {
        ReleaseOk(s, untainted.call, strategy, env);
      }
    }
  }

  lemma RemediateOk(s: Server, c: Call, strategy: Strategy, env: Env)
    requires HandlerStart(s, c, strategy) && s.present
    requires (s.status.phase == Some(FencingCompleted) ==> c.status == s.status)
    ensures var o := Remediate(c, strategy, env).call;
            CallOk(s, o, strategy) && Foreign(o.server.node.taints) == Foreign(s.node.taints)
  {
    if strategy != UnsupportedStrategy {
      match GetPhase(c.status) {
        case FencingStartedPhase => PrepareRebootOk(s, c, strategy, env);
        case PreRebootCompletedPhase => WaitOk(s, c, strategy, env);
        case RebootCompletedPhase => HandleRebootCompletedOk(s, c, strategy, env);
        case FencingCompletedPhase =>
          if s.meta.deleted {
            RecoverNodeOk(s, c, strategy, env);
          }
      }
    }
  }

  lemma StartedOk(s: Server, strategy: Strategy)
    requires ServerInv(s, strategy)
    ensures HandlerStart(s, Started(s), strategy) && CallOk(s, Started(s), strategy)
  {
    ConditionsUpdated(s.status, RemediationStarted);
  }

  /** Does this reconcile get as far as the phase handlers? A time-out stops it only while not deleted. */
  predicate ReachesHandler(s: Server, env: Env) {
    env.config.Found? && (s.meta.timedOut ==> s.meta.deleted) && env.nodeRead.Found? && !env.excluded
  }

  lemma NodeNotReadOk(s: Server, strategy: Strategy, env: Env)
    requires ServerInv(s, strategy) && !env.nodeRead.Found?
    ensures var c := Started(s);
            var skipped := UpdateConditions(c.status, RemediationSkippedNodeNotFound);
            var st := if env.nodeRead.NotFound? then skipped else c.status;
            CallOk(s, c.(status := st), strategy)
  {
    StartedOk(s, strategy);
    ConditionsUpdated(Started(s).status, RemediationSkippedNodeNotFound);
  }

  lemma EarlyReturnOk(s: Server, strategy: Strategy)
    requires ServerInv(s, strategy)
    ensures CallOk(s, Begin(s), strategy)
    ensures CallOk(s, Begin(s).(status := SetDisabled(s.status)), strategy)
    ensures CallOk(s, Begin(s).(status := UpdateConditions(s.status, RemediationTimeoutByNhc)), strategy)
  {
    ConditionsUpdated(s.status, RemediationTimeoutByNhc);
  }

  lemma StatusFinished(s: Server, c: Call, strategy: Strategy, env: Env)
    requires StatusOk(s.status) && CallOk(s, c, strategy)
    ensures var f := FinishStatus(c, env);
            Persisted(s, f, strategy) && f.server == c.server.(status := f.server.status) && f.removal == c.removal
  {
  }

  /** Nothing but the status differs from what the reconcile began with, and the phase does not. */
  predicate OnlyStatusWritten(s: Server, c: Call, strategy: Strategy) {
    && Persisted(s, c, strategy) && c.server == s.(status := c.server.status) && !c.removal
    && c.server.status.phase == s.status.phase
  }

  lemma WithoutStart(s: Server, strategy: Strategy, env: Env)
    requires ServerInv(s, strategy) && (!env.config.Found? || (s.meta.timedOut && !s.meta.deleted))
    ensures OnlyStatusWritten(s, ReconcileManager(s, strategy, env), strategy)
  {
    EarlyReturnOk(s, strategy);
    StatusFinished(s, ReconcileBody(s, strategy, env), strategy, env);
  }

  lemma WithoutNode(s: Server, strategy: Strategy, env: Env)
    requires ServerInv(s, strategy) && env.config.Found? && (s.meta.timedOut ==> s.meta.deleted) && !env.nodeRead.Found?
    ensures OnlyStatusWritten(s, ReconcileManager(s, strategy, env), strategy)
  {
    var c := Started(s);
    NodeNotReadOk(s, strategy, env);
    var skipped := UpdateConditions(c.status, RemediationSkippedNodeNotFound);
    var st := if env.nodeRead.NotFound? then skipped else c.status;
    CallFinished(s, Outcome(c.(status := st), Err(env.nodeRead.message)), strategy, env);
  }

  /** A reconcile that does not get that far touches neither the node nor the finalizer. */
  lemma WithoutHandler(s: Server, strategy: Strategy, env: Env)
    requires ServerInv(s, strategy) && !ReachesHandler(s, env)
    ensures OnlyStatusWritten(s, ReconcileManager(s, strategy, env), strategy)
  {
    if !env.config.Found? || (s.meta.timedOut && !s.meta.deleted) {
      WithoutStart(s, strategy, env);
    } else if !env.nodeRead.Found? {
      WithoutNode(s, strategy, env);
    } else {
      StartedOk(s, strategy);
      StatusFinished(s, Started(s), strategy, env);
    }
  }

  /**
   Every reconcile of the manager, whatever its writes do: it keeps the invariant, advances the persisted phase by at
   most one and never back, never changes a time once set, dereferences no nil time, and leaves foreign taints alone.
   */
  lemma ManagerStepOk(s: Server, strategy: Strategy, env: Env)
    requires ServerInv(s, strategy) && s.present
    ensures var c := ReconcileManager(s, strategy, env);
            Persisted(s, c, strategy) && Foreign(c.server.node.taints) == Foreign(s.node.taints)
  {
    if ReachesHandler(s, env) {
      StartedOk(s, strategy);
      RemediateOk(s, Started(s), strategy, env);
      CallFinished(s, Remediate(Started(s), strategy, env), strategy, env);
    } else {
      WithoutHandler(s, strategy, env);
    }
  }
}
