/**
 The remediation protocol of controllers/selfnoderemediation_controller.go on values: what is persisted, what one
 reconcile keeps in memory, and what every handler makes of both. Each write to the API server has an outcome of the
 environment's choosing.
 */
module Remediation {
  import opened Basics
  import opened Taints

  // ---------- the persisted objects ----------

  datatype Phase = PreRebootCompleted | RebootCompleted | FencingCompleted | OtherPhase(text: string)

  datatype ConditionStatus = ConditionTrue | ConditionFalse | ConditionUnknown

  datatype Reason =
    | RemediationStarted
    | RemediationTimeoutByNhc
    | RemediationFinishedSuccessfully
    | RemediationSkippedNodeNotFound
    | ConfigurationNotFound

  datatype Condition = Condition(status: ConditionStatus, reason: Reason)

  /** The list of conditions, which holds at most one of each type. */
  datatype Conditions = Conditions(
    processing: Option<Condition>,
    succeeded: Option<Condition>,
    disabled: Option<Condition>)

  const NO_CONDITIONS := Conditions(None, None, None)

  /** Error texts; `NoText` is the empty one. */
  datatype Text =
    | NoText
    | NotRebootCapable // Node is not capable to reboot itself
    | NoRebootDuration // failed to get assumed reboot duration
    | NotDrained       // Not ready to delete out-of-service taint
    | UnknownPhaseText // unknown phase
    | ClientError(text: string)

  datatype Status = Status(
    phase: Option<Phase>,
    timeAssumedRebooted: Option<int>,
    lastError: Text,
    conditions: Conditions)

  const NEW_STATUS := Status(None, None, NoText, NO_CONDITIONS)

  /**
   Metadata of a SelfNodeRemediation: `deleted` stands for its deletion timestamp, `held` for finalizers of others,
   `timedOut` for the annotation by which NodeHealthCheck stops a remediation.
   */
  datatype Meta = Meta(created: int, deleted: bool, held: bool, timedOut: bool)

  datatype Node = Node(unschedulable: bool, taints: seq<Taint>)

  /**
   The API server's view: the remediation, with the operator's finalizer and its status, and the node. The remediation
   no longer exists once it is deleted and no finalizer is left.
   */
  datatype Server = Server(present: bool, meta: Meta, finalizer: bool, status: Status, node: Node)

  predicate Survives(meta: Meta, finalizer: bool) {
    !meta.deleted || finalizer || meta.held
  }

  // ---------- the environment of one reconcile ----------

  datatype Error = NoError | Err(message: Text)

  /** `Unconfirmed`: the server stored the write, but the client was told that it failed. */
  datatype Write = Done | Conflict(message: Text) | Rejected(message: Text) | Unconfirmed(message: Text) {
    predicate Stored(): (stored: bool)
      ensures stored <==> !Conflict? && !Rejected?
    {
      Done? || Unconfirmed?
    }

    function Result(): (e: Error)
      ensures Done? ==> e == NoError
      ensures !Done? ==> e == Err(message)
    {
      match this
      case Done => NoError
      case Conflict(m) => Err(m)
      case Rejected(m) => Err(m)
      case Unconfirmed(m) => Err(m)
    }

    /** For the updates after which a conflict only leads to another reconcile. */
    function ResultButConflict(): (e: Error)
      ensures Done? || Conflict? ==> e == NoError
      ensures Rejected? || Unconfirmed? ==> e == Err(message)
    {
      if Conflict? then NoError else Result()
    }
  }

  datatype Read = Found | NotFound(message: Text) | ReadFailed(message: Text)

  datatype Env = Env(
    now: int,
    config: Read,
    nodeRead: Read,
    excluded: bool,
    rebootCapable: bool,
    duration: Option<int>,         // the calculator's answer, absent if it failed
    drained: bool,                 // no terminating pod and no volume attachment is left on the node
    finalizerWrite: Write,
    noExecuteWrite: Write,
    unschedulableWrite: Write,
    podDeletion: Write,
    outOfServiceAdd: Write,
    outOfServiceRemove: Write,
    lastErrorWrite: Write,
    statusWrite: Write,
    keepsAbsent: bool)             // whether decoding a response keeps fields that the response does not have

  datatype Strategy = ResourceDeletion | OutOfServiceTaint | UnsupportedStrategy

  // ---------- one reconcile ----------

  /**
   A reconcile in progress: the server, the copies in memory of what may change, whether workloads were told to leave
   (pods deleted or the out-of-service taint written), and whether a nil pointer was dereferenced.
   */
  datatype Call = Call(server: Server, finalizer: bool, status: Status, node: Node, removal: bool, crashed: bool)

  datatype Outcome = Outcome(call: Call, err: Error)

  datatype CurrentPhase =
    FencingStartedPhase | PreRebootCompletedPhase | RebootCompletedPhase | FencingCompletedPhase | UnknownPhase

  function GetPhase(status: Status): CurrentPhase {
    match status.phase
    case None => FencingStartedPhase
    case Some(PreRebootCompleted) => PreRebootCompletedPhase
    case Some(RebootCompleted) => RebootCompletedPhase
    case Some(FencingCompleted) => FencingCompletedPhase
    case Some(OtherPhase(_)) => UnknownPhase
  }

  predicate IsStoppedByNhc(meta: Meta) {
    !meta.deleted && meta.timedOut
  }

  /** Decoding a response into an object: what the server holds replaces what is in memory. */
  function Decode(stored: Status, memory: Status, keepsAbsent: bool): Status {
    if !keepsAbsent then stored
    else Status(
           if stored.phase.Some? then stored.phase else memory.phase,
           if stored.timeAssumedRebooted.Some? then stored.timeAssumedRebooted else memory.timeAssumedRebooted,
           if stored.lastError != NoText then stored.lastError else memory.lastError,
           if stored.conditions != NO_CONDITIONS then stored.conditions else memory.conditions)
  }

  /**
   Update of the remediation: the status is a subresource, so only metadata is written, and the response is decoded.
   */
  function UpdateSnr(c: Call, w: Write, keepsAbsent: bool): Call {
    var s := c.server;
    var stored := s.(finalizer := c.finalizer, present := s.present && Survives(s.meta, c.finalizer));
    c.(server := if w.Stored() then stored else s,
       status := if w.Done? then Decode(s.status, c.status, keepsAbsent) else c.status)
  }

  function UpdateNode(c: Call, w: Write): Call {
    if w.Stored() then c.(server := c.server.(node := c.node)) else c
  }

  function ConditionsFor(reason: Reason): (ConditionStatus, ConditionStatus) {
    match reason
    case RemediationStarted => (ConditionTrue, ConditionUnknown)
    case RemediationFinishedSuccessfully => (ConditionFalse, ConditionTrue)
    case _ => (ConditionFalse, ConditionFalse)
  }

  /** Both conditions are set, with the same reason; nothing changes if their statuses are the wanted ones already. */
  function UpdateConditions(status: Status, reason: Reason): Status {
    var (processing, succeeded) := ConditionsFor(reason);
    var m := status.conditions;
    if && m.processing.Some? && m.processing.value.status == processing
       && m.succeeded.Some? && m.succeeded.value.status == succeeded then status
    else status.(conditions := m.(processing := Some(Condition(processing, reason)),
                                  succeeded := Some(Condition(succeeded, reason))))
  }

  function AddFinalizer(c: Call, env: Env): Outcome {
    if c.server.meta.deleted then Outcome(c, NoError)
    else Outcome(UpdateSnr(c.(finalizer := true), env.finalizerWrite, env.keepsAbsent),
                 env.finalizerWrite.ResultButConflict())
  }

  function RemoveFinalizer(c: Call, env: Env): Outcome {
    Outcome(UpdateSnr(c.(finalizer := false), env.finalizerWrite, env.keepsAbsent), env.finalizerWrite.Result())
  }

  function AddTaint(c: Call, taint: Taint, now: int, w: Write): Outcome {
    if Has(c.node.taints, taint) then Outcome(c, NoError)
    else
      var node := c.node.(taints := c.node.taints + [taint.(timeAdded := Some(now))]);
      Outcome(UpdateNode(c.(node := node), w), w.Result())
  }

  function RemoveTaint(c: Call, taint: Taint, w: Write): Outcome {
    if !Has(c.node.taints, taint) then Outcome(c, NoError)
    else Outcome(UpdateNode(c.(node := c.node.(taints := Without(c.node.taints, taint))), w), w.Result())
  }

  function MarkNodeAsUnschedulable(c: Call, env: Env): Outcome {
    if c.node.unschedulable then Outcome(c, NoError)
    else Outcome(UpdateNode(c.(node := c.node.(unschedulable := true)), env.unschedulableWrite),
                 env.unschedulableWrite.ResultButConflict())
  }

  /** The computed time is kept with the precision of a second, as stored times are. */
  function SetTimeAssumedRebooted(c: Call, env: Env): Outcome {
    if c.status.timeAssumedRebooted.Some? then Outcome(c, NoError)
    else
      match env.duration
      case None => Outcome(c, Err(NoRebootDuration))
      case Some(d) =>
        Outcome(c.(status := c.status.(timeAssumedRebooted := Some(TruncateToSecond(env.now + d)))), NoError)
  }

  predicate ReadyForReboot(node: Node) {
    node.unschedulable && Has(node.taints, NODE_UNSCHEDULABLE)
  }

  function PrepareReboot(c: Call, env: Env): Outcome {
    if !env.rebootCapable then Outcome(c, Err(NotRebootCapable))
    else if !c.finalizer then AddFinalizer(c, env)
    else
      var tainted := AddTaint(c, NODE_NO_EXECUTE, env.now, env.noExecuteWrite);
      if tainted.err != NoError then tainted
      else if !ReadyForReboot(tainted.call.node) then MarkNodeAsUnschedulable(tainted.call, env)
      else
        var timed := SetTimeAssumedRebooted(tainted.call, env);
        if timed.err != NoError then timed
        else Outcome(timed.call.(status := timed.call.status.(phase := Some(PreRebootCompleted))), NoError)
  }

  /** Dereferences the time; a nil one ends the reconcile with a panic. */
  function WaitForNodeRebooted(c: Call, env: Env): Outcome {
    match c.status.timeAssumedRebooted
    case None => Outcome(c.(crashed := true), NoError)
    case Some(t) =>
      if t > env.now then Outcome(c, NoError)
      else Outcome(c.(status := c.status.(phase := Some(RebootCompleted))), NoError)
  }

  datatype Removal = Removal(call: Call, err: Error, wait: bool)

  function DeleteResources(c: Call, env: Env): Removal {
    Removal(c.(removal := true), env.podDeletion.Result(), false)
  }

  const DELETION_TIMEOUT := 300 * SECOND

  function UseOutOfServiceTaint(c: Call, env: Env): Removal {
    var added := AddTaint(c.(removal := true), OUT_OF_SERVICE, env.now, env.outOfServiceAdd);
    if added.err != NoError then Removal(added.call, added.err, false)
    else if !env.drained then
      match added.call.status.timeAssumedRebooted
      case None => Removal(added.call.(crashed := true), NoError, true)
      case Some(t) =>
        if t + DELETION_TIMEOUT > env.now then Removal(added.call, NoError, true)
        else Removal(added.call, Err(NotDrained), false)
    else
      var removed := RemoveTaint(added.call, OUT_OF_SERVICE, env.outOfServiceRemove);
      Removal(removed.call, removed.err, false)
  }

  function RemoveNodeResources(c: Call, strategy: Strategy, env: Env): Removal
    requires strategy != UnsupportedStrategy
  {
    if strategy == OutOfServiceTaint then UseOutOfServiceTaint(c, env) else DeleteResources(c, env)
  }

  function HandleRebootCompletedPhase(c: Call, strategy: Strategy, env: Env): Outcome
    requires strategy != UnsupportedStrategy
  {
    var r := RemoveNodeResources(c, strategy, env);
    if r.err != NoError || r.wait then Outcome(r.call, r.err)
    else
      var status := r.call.status.(phase := Some(FencingCompleted));
      Outcome(r.call.(status := UpdateConditions(status, RemediationFinishedSuccessfully)), NoError)
  }

  function MarkNodeAsSchedulable(c: Call, env: Env): Call {
    if !c.node.unschedulable then c
    else UpdateNode(c.(node := c.node.(unschedulable := false)), env.unschedulableWrite)
  }

  function RecoverNode(c: Call, env: Env): Outcome {
    var schedulable := MarkNodeAsSchedulable(c, env);
    if c.node.unschedulable && env.unschedulableWrite != Done then
      Outcome(schedulable, env.unschedulableWrite.ResultButConflict())
    else if Has(schedulable.node.taints, NODE_UNSCHEDULABLE) then Outcome(schedulable, NoError)
    else
      var untainted := RemoveTaint(schedulable, NODE_NO_EXECUTE, env.noExecuteWrite);
      if untainted.err != NoError then untainted
      else if untainted.call.finalizer then RemoveFinalizer(untainted.call, env)
      else Outcome(untainted.call, NoError)
  }

  function HandleFencingCompletedPhase(c: Call, env: Env): Outcome {
    if c.server.meta.deleted then RecoverNode(c, env) else Outcome(c, NoError)
  }

  /** The unsupported strategy's error is assigned to a shadowing variable, so it is reported as no error. */
  function Remediate(c: Call, strategy: Strategy, env: Env): Outcome {
    if strategy == UnsupportedStrategy then Outcome(c, NoError)
    else
      match GetPhase(c.status)
      case FencingStartedPhase => PrepareReboot(c, env)
      case PreRebootCompletedPhase => WaitForNodeRebooted(c, env)
      case RebootCompletedPhase => HandleRebootCompletedPhase(c, strategy, env)
      case FencingCompletedPhase => HandleFencingCompletedPhase(c, env)
      case UnknownPhase => Outcome(c, Err(UnknownPhaseText))
  }

  function MessageOf(err: Error): (m: Text)
    ensures err.Err? ==> m == err.message
    ensures err.NoError? ==> m == NoText
  {
    match err
    case NoError => NoText
    case Err(m) => m
  }

  /** Patches the last error if it changed; the response, which holds the whole status, is decoded into memory. */
  function UpdateLastError(o: Outcome, env: Env): Call {
    var c, message := o.call, MessageOf(o.err);
    if c.status.lastError == message then c
    else
      var memory := c.status.(lastError := message);
      if !c.server.present then c.(status := memory)
      else
        var stored := c.server.status.(lastError := message);
        c.(server := if env.lastErrorWrite.Stored() then c.server.(status := stored) else c.server,
           status := if env.lastErrorWrite.Done? then Decode(stored, memory, env.keepsAbsent) else memory)
  }

  /** The deferred write of the whole status. */
  function FinishStatus(c: Call, env: Env): Call {
    if c.server.present && env.statusWrite.Stored() then c.(server := c.server.(status := c.status)) else c
  }

  function Begin(s: Server): Call {
    Call(s, s.finalizer, s.status, s.node, false, false)
  }

  /** The conditions say that the remediation has started, unless it is completed already. */
  function Started(s: Server): Call {
    if GetPhase(s.status) == FencingCompletedPhase then Begin(s)
    else Begin(s).(status := UpdateConditions(s.status, RemediationStarted))
  }

  function SetDisabled(st: Status): Status {
    st.(conditions := st.conditions.(disabled := Some(Condition(ConditionTrue, ConfigurationNotFound))))
  }

  /** A reconcile up to the deferred status write. */
  function ReconcileBody(s: Server, strategy: Strategy, env: Env): Call {
    if env.config.ReadFailed? then Begin(s)
    else if env.config.NotFound? then Begin(s).(status := SetDisabled(s.status))
    else if IsStoppedByNhc(s.meta) then Begin(s).(status := UpdateConditions(s.status, RemediationTimeoutByNhc))
    else
      var c := Started(s);
      match env.nodeRead
      case NotFound(m) =>
        var skipped := c.(status := UpdateConditions(c.status, RemediationSkippedNodeNotFound));
        UpdateLastError(Outcome(skipped, Err(m)), env)
      case ReadFailed(m) => UpdateLastError(Outcome(c, Err(m)), env)
      case Found => if env.excluded then c else UpdateLastError(Remediate(c, strategy, env), env)
  }

  /** One reconcile of an existing remediation. */
  function ReconcileManager(s: Server, strategy: Strategy, env: Env): Call {
    FinishStatus(ReconcileBody(s, strategy, env), env)
  }
}
