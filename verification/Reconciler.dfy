/**
 The controller's code in its own form: handlers that update the copies of the remediation and of the node in memory and
 write them to the API server. Every method is proved to do what the functions of Remediation say.
 */
module Reconciler {
  import opened Basics
  import opened Taints
  import opened Remediation

  class SelfNodeRemediationReconciler {
    var server: Server
    var finalizer: bool
    var status: Status
    var node: Node
    var removal: bool
    var crashed: bool
    const strategy: Strategy

    constructor (server: Server, strategy: Strategy)
      ensures this.server == server && this.strategy == strategy
    {
      this.server, this.strategy := server, strategy;
      finalizer, status, node := server.finalizer, server.status, server.node;
      removal, crashed := false, false;
    }

    function State(): Call
      reads this
    {
      Call(server, finalizer, status, node, removal, crashed)
    }

    method WriteSnr(w: Write, keepsAbsent: bool)
      modifies this
      ensures State() == UpdateSnr(old(State()), w, keepsAbsent)
    {
      var stored := server.status;
      if w.Stored() {
        server := server.(finalizer := finalizer, present := server.present && Survives(server.meta, finalizer));
      }
      if w.Done? {
        status := Decode(stored, status, keepsAbsent);
      }
    }

    method WriteNode(w: Write)
      modifies this
      ensures State() == UpdateNode(old(State()), w)
    {
      if w.Stored() {
        server := server.(node := node);
      }
    }

    method SetConditions(reason: Reason)
      modifies this
      ensures State() == old(State()).(status := UpdateConditions(old(status), reason))
    {
      var processing, succeeded := ConditionFalse, ConditionFalse;
      if reason == RemediationStarted {
        processing, succeeded := ConditionTrue, ConditionUnknown;
      } else if reason == RemediationFinishedSuccessfully {
        succeeded := ConditionTrue;
      }
      var m := status.conditions;
      if && m.processing.Some? && m.processing.value.status == processing
         && m.succeeded.Some? && m.succeeded.value.status == succeeded {
        return;
      }
      m := m.(processing := Some(Condition(processing, reason)));
      m := m.(succeeded := Some(Condition(succeeded, reason)));
      status := status.(conditions := m);
    }

    method AddFinalizer(env: Env) returns (err: Error)
      modifies this
      ensures Outcome(State(), err) == Remediation.AddFinalizer(old(State()), env)
    {
      if server.meta.deleted {
        return NoError;
      }
      finalizer := true;
      WriteSnr(env.finalizerWrite, env.keepsAbsent);
      return env.finalizerWrite.ResultButConflict();
    }

    method RemoveFinalizer(env: Env) returns (err: Error)
      modifies this
      ensures Outcome(State(), err) == Remediation.RemoveFinalizer(old(State()), env)
    {
      finalizer := false;
      WriteSnr(env.finalizerWrite, env.keepsAbsent);
      return env.finalizerWrite.Result();
    }

    method AddTaint(taint: Taint, now: int, w: Write) returns (err: Error)
      modifies this
      ensures Outcome(State(), err) == Remediation.AddTaint(old(State()), taint, now, w)
    {
      var found := TaintExists(node.taints, taint);
      if found {
        return NoError;
      }
      node := node.(taints := node.taints + [taint.(timeAdded := Some(now))]);
      WriteNode(w);
      return w.Result();
    }

    method RemoveTaint(taint: Taint, w: Write) returns (err: Error)
      modifies this
      ensures Outcome(State(), err) == Remediation.RemoveTaint(old(State()), taint, w)
    {
      var found := TaintExists(node.taints, taint);
      if !found {
        return NoError;
      }
      var taints, deleted := DeleteTaint(node.taints, taint);
      if !deleted {
        return NoError;
      }
      node := node.(taints := taints);
      WriteNode(w);
      return w.Result();
    }

    method MarkNodeAsUnschedulable(env: Env) returns (err: Error)
      modifies this
      ensures Outcome(State(), err) == Remediation.MarkNodeAsUnschedulable(old(State()), env)
    {
      if node.unschedulable {
        return NoError;
      }
      node := node.(unschedulable := true);
      WriteNode(env.unschedulableWrite);
      return env.unschedulableWrite.ResultButConflict();
    }

    method SetTimeAssumedRebooted(env: Env) returns (err: Error)
      modifies this
      ensures Outcome(State(), err) == Remediation.SetTimeAssumedRebooted(old(State()), env)
    {
      if status.timeAssumedRebooted.Some? {
        return NoError;
      }
      if env.duration.None? {
        return Err(NoRebootDuration);
      }
      status := status.(timeAssumedRebooted := Some(TruncateToSecond(env.now + env.duration.value)));
      return NoError;
    }

    method PrepareReboot(env: Env) returns (err: Error)
      modifies this
      ensures Outcome(State(), err) == Remediation.PrepareReboot(old(State()), env)
    {
      if !env.rebootCapable {
        return Err(NotRebootCapable);
      }
      if !finalizer {
        err := AddFinalizer(env);
        return;
      }
      err := AddTaint(NODE_NO_EXECUTE, env.now, env.noExecuteWrite);
      if err != NoError {
        return;
      }
      var found := TaintExists(node.taints, NODE_UNSCHEDULABLE);
      if !node.unschedulable || !found {
        err := MarkNodeAsUnschedulable(env);
        return;
      }
      err := SetTimeAssumedRebooted(env);
      if err != NoError {
        return;
      }
      status := status.(phase := Some(PreRebootCompleted));
    }

    method WaitForNodeRebooted(env: Env) returns (err: Error)
      modifies this
      ensures Outcome(State(), err) == Remediation.WaitForNodeRebooted(old(State()), env)
    {
      err := NoError;
      if status.timeAssumedRebooted.None? {
        crashed := true;
        return;
      }
      if status.timeAssumedRebooted.value > env.now {
        return;
      }
      status := status.(phase := Some(RebootCompleted));
    }

    method UseOutOfServiceTaint(env: Env) returns (err: Error, wait: bool)
      modifies this
      ensures Removal(State(), err, wait) == Remediation.UseOutOfServiceTaint(old(State()), env)
    {
      removal := true;
      wait := false;
      err := AddTaint(OUT_OF_SERVICE, env.now, env.outOfServiceAdd);
      if err != NoError {
        return;
      }
      if !env.drained {
        if status.timeAssumedRebooted.None? {
          crashed := true;
          return NoError, true;
        }
        if status.timeAssumedRebooted.value + DELETION_TIMEOUT > env.now {
          return NoError, true;
        }
        return Err(NotDrained), false;
      }
      err := RemoveTaint(OUT_OF_SERVICE, env.outOfServiceRemove);
    }

    method HandleRebootCompletedPhase(env: Env) returns (err: Error)
      requires strategy != UnsupportedStrategy
      modifies this
      ensures Outcome(State(), err) == Remediation.HandleRebootCompletedPhase(old(State()), strategy, env)
    {
      var wait := false;
      if strategy == OutOfServiceTaint {
        err, wait := UseOutOfServiceTaint(env);
      } else {
        removal := true;
        err := env.podDeletion.Result();
      }
      if err != NoError || wait {
        return;
      }
      status := status.(phase := Some(FencingCompleted));
      SetConditions(RemediationFinishedSuccessfully);
    }

    method RecoverNode(env: Env) returns (err: Error)
      modifies this
      ensures Outcome(State(), err) == Remediation.RecoverNode(old(State()), env)
    {
      if node.unschedulable {
        node := node.(unschedulable := false);
        WriteNode(env.unschedulableWrite);
        if !env.unschedulableWrite.Done? {
          return env.unschedulableWrite.ResultButConflict();
        }
      }
      var found := TaintExists(node.taints, NODE_UNSCHEDULABLE);
      if found {
        return NoError;
      }
      err := RemoveTaint(NODE_NO_EXECUTE, env.noExecuteWrite);
      if err != NoError {
        return;
      }
      if finalizer {
        err := RemoveFinalizer(env);
      }
    }

    method Remediate(env: Env) returns (err: Error)
      modifies this
      ensures Outcome(State(), err) == Remediation.Remediate(old(State()), strategy, env)
    {
      err := NoError;
      if strategy == UnsupportedStrategy {
        return;
      }
      match GetPhase(status) {
        case FencingStartedPhase => err := PrepareReboot(env);
        case PreRebootCompletedPhase => err := WaitForNodeRebooted(env);
        case RebootCompletedPhase => err := HandleRebootCompletedPhase(env);
        case FencingCompletedPhase =>
          if server.meta.deleted {
            err := RecoverNode(env);
          }
        case UnknownPhase => err := Err(UnknownPhaseText);
      }
    }

    method UpdateSnrStatusLastError(err: Error, env: Env)
      modifies this
      ensures State() == UpdateLastError(Outcome(old(State()), err), env)
    {
      var message := MessageOf(err);
      if status.lastError == message {
        return;
      }
      status := status.(lastError := message);
      if server.present {
        var stored := server.status.(lastError := message);
        if env.lastErrorWrite.Stored() {
          server := server.(status := stored);
        }
        if env.lastErrorWrite.Done? {
          status := Decode(stored, status, env.keepsAbsent);
        }
      }
    }

    /** Everything between reading the remediation and the deferred status write. */
    method ReconcileBody(env: Env)
      modifies this
      ensures State() == Remediation.ReconcileBody(old(server), strategy, env)
    {
      finalizer, status, node, removal, crashed := server.finalizer, server.status, server.node, false, false;
      if env.config.ReadFailed? {
        return;
      }
      if env.config.NotFound? {
        status := SetDisabled(status);
        return;
      }
      if IsStoppedByNhc(server.meta) {
        // the source's branch for a deleted remediation is dead
        assert !server.meta.deleted;
        SetConditions(RemediationTimeoutByNhc);
        return;
      }
      if GetPhase(status) != FencingCompletedPhase {
        SetConditions(RemediationStarted);
      }
      var err;
      match env.nodeRead {
        case NotFound(m) =>
          SetConditions(RemediationSkippedNodeNotFound);
          err := Err(m);
        case ReadFailed(m) =>
          err := Err(m);
        case Found =>
          if env.excluded {
            return;
          }
          err := Remediate(env);
      }
      UpdateSnrStatusLastError(err, env);
    }

    method ReconcileManager(env: Env)
      modifies this
      ensures State() == Remediation.ReconcileManager(old(server), strategy, env)
    {
      ReconcileBody(env);
      if server.present && env.statusWrite.Stored() {
        server := server.(status := status);
      }
    }
  }
}
