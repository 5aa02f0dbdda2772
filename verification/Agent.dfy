/**
 The agent's side of the protocol: reboot the own node, once, when the manager has fenced it.
 */
module Agent {
  import opened Basics
  import opened Remediation
  import opened RemediationInvariant
  import opened RemediationRuns
  import Names = OwnerAndName

  datatype Action = NoAction | Fails | CallsRebooter

  /** The kernel reports the uptime in whole seconds; which way it rounds is the kernel's choice. */
  datatype Rounding = Down | Up

  function Uptime(now: int, boot: int, rounding: Rounding): int {
    match rounding
    case Down => TruncateToSecond(now - boot)
    case Up => -TruncateToSecond(boot - now)
  }

  predicate DidIRebootMyself(now: int, boot: int, created: int, rounding: Rounding) {
    Uptime(now, boot, rounding) < now - created
  }

  function RebootIfNeeded(now: int, boot: Option<int>, created: int, rounding: Rounding): Action {
    match boot
    case None => Fails
    case Some(b) => if DidIRebootMyself(now, b, created, rounding) then NoAction else CallsRebooter
  }

  /** One reconcile of the agent on `myNode`; `boot` is absent if the uptime cannot be read. */
  function ReconcileAgent(s: Server, m: Names.Meta, machines: Names.Machines, myNode: string,
                          now: int, boot: Option<int>, rounding: Rounding): Action {
    if !s.present || s.meta.deleted then NoAction
    else
      match Names.IsSnrMatching(m, machines, myNode, Names.AGENT_MACHINE_NAME)
      case MatchError => Fails
      case Match(matches, _) =>
        if !matches then NoAction
        else if GetPhase(s.status) == PreRebootCompletedPhase then RebootIfNeeded(now, boot, s.meta.created, rounding)
        else NoAction
  }

  /** The remediation is about this agent's node, or a Machine with an empty name makes every agent think so. */
  predicate Mine(m: Names.Meta, machines: Names.Machines, myNode: string) {
    Names.NamelessMachineOwner(m) || Names.GetNodeName(m, machines) == Names.Name(myNode)
  }

  /**
   Exactly when an agent calls the rebooter: the remediation exists, is not deleted, is about its node and has been
   prepared, and the uptime is not shorter than the remediation is old. It fails exactly when it cannot find out.
   */
  lemma AgentExactly(s: Server, m: Names.Meta, machines: Names.Machines, myNode: string,
                     now: int, boot: Option<int>, rounding: Rounding)
    ensures var action := ReconcileAgent(s, m, machines, myNode, now, boot, rounding);
            var prepared := s.present && !s.meta.deleted && s.status.phase == Some(PreRebootCompleted);
            && (action == CallsRebooter <==>
                && prepared && Mine(m, machines, myNode)
                && boot.Some? && Uptime(now, boot.value, rounding) >= now - s.meta.created)
            && (action == Fails <==>
                || (s.present && !s.meta.deleted && !Names.NamelessMachineOwner(m)
                    && Names.GetNodeName(m, machines) == Names.NameError)
                || (prepared && Mine(m, machines, myNode) && boot.None?))
  {
  }

  /**
   In every run an agent calls the rebooter only for an existing, undeleted remediation in phase Pre-Reboot-Completed,
   when the node is fenced and the host has not booted after the remediation was created (or less than a second after,
   if the uptime is rounded up); and, unless a Machine with an empty name owns the remediation, only if the manager
   resolves the remediation to the agent's own node.
   */
  lemma RebootsOnlyFencedOwnNode(states: seq<State>, events: seq<Event>, strategy: Strategy, k: nat,
                                 m: Names.Meta, machines: Names.Machines, myNode: string,
                                 boot: Option<int>, rounding: Rounding)
    requires IsRun(states, events, strategy) && k < |states|
    requires ReconcileAgent(states[k].server, m, machines, myNode, states[k].now, boot, rounding) == CallsRebooter
    ensures states[k].server.present && !states[k].server.meta.deleted
    ensures states[k].server.status.phase == Some(PreRebootCompleted)
    ensures NodeFenced(states[k].server)
    ensures boot.Some? && boot.value < states[k].server.meta.created + if rounding.Up? then SECOND else 1
    ensures !Names.NamelessMachineOwner(m) ==> Names.GetNodeName(m, machines) == Names.Name(myNode)
  {
    FencedInEveryRun(states, events, strategy, k);
    Names.AgentAgreesWithManager(m, machines);
  }

  /** At whatever time the agent is asked, it takes the host for rebooted. */
  ghost predicate NeverReboots(boot: int, created: int, rounding: Rounding) {
    forall now :: now >= Max(boot, created) ==> DidIRebootMyself(now, boot, created, rounding)
  }

  ghost predicate AlwaysReboots(boot: int, created: int, rounding: Rounding) {
    forall now :: now >= Max(boot, created) ==> !DidIRebootMyself(now, boot, created, rounding)
  }

  /**
   The uptime has whole seconds only. Rounded down, a host never reboots for a remediation, at any time, if and only
   if it booted after the remediation was created, and it does so at every time if and only if it booted about a
   second before or earlier. Rounded up, these are a second after or later, and not after. In between, whether it
   reboots depends on the fraction of a second at which it is asked.
   */
  lemma RebootDecidedExactly(boot: int, created: int)
    ensures NeverReboots(boot, created, Down) <==> boot > created
    ensures AlwaysReboots(boot, created, Down) <==> created - boot >= SECOND - 1
    ensures NeverReboots(boot, created, Up) <==> boot - created >= SECOND
    ensures AlwaysReboots(boot, created, Up) <==> boot <= created
  {
    var late := boot + SECOND * Max(0, created - boot);
    if boot <= created {
      UptimeAt(late, boot, 0);
      assert !DidIRebootMyself(late, boot, created, Down);
    } else {
      UptimeAt(boot, boot, 0);
      assert DidIRebootMyself(boot, boot, created, Down) && DidIRebootMyself(boot, boot, created, Up);
    }
    if boot <= created && created - boot < SECOND - 1 {
      UptimeAt(boot + 2 * SECOND - 1, boot, SECOND - 1);
      assert DidIRebootMyself(boot + 2 * SECOND - 1, boot, created, Down);
    }
    if boot - created < SECOND {
      UptimeAt(late + 1, boot, 1);
      assert !DidIRebootMyself(late + 1, boot, created, Up);
    }
  }

  lemma UptimeAt(now: int, boot: int, fraction: int)
    requires 0 <= fraction < SECOND && (now - boot - fraction) % SECOND == 0
    ensures Uptime(now, boot, Down) == now - boot - fraction
    ensures Uptime(now, boot, Up) == now - boot - fraction + if fraction == 0 then 0 else SECOND
  {
  }
}
