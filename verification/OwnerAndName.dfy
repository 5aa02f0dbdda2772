/**
 Which node a remediation is about (controllers/owner_and_name.go). The Machine lookup is an argument.
 */
module OwnerAndName {
  import opened Basics

  const NODE_HEALTH_CHECK_KIND := "NodeHealthCheck"
  const MACHINE_KIND := "Machine"

  datatype OwnerReference = OwnerReference(kind: string, name: string)

  /** The identifying metadata of a remediation; `nodeNameAnnotation` is absent when the annotation is. */
  datatype Meta = Meta(name: string, nodeNameAnnotation: Option<string>, owners: seq<OwnerReference>)

  /** What reading a Machine gives: an error, a Machine without node reference, or the referenced node's name. */
  datatype MachineRead = ReadError | NoNodeRef | NodeRef(nodeName: string)

  type Machines = string -> MachineRead

  datatype NameResult = Name(name: string) | NameError

  datatype MatchResult = Match(matches: bool, nodeName: string) | MatchError

  /** The first owner of the given kind. */
  function FirstOwner(owners: seq<OwnerReference>, kind: string): (r: Option<OwnerReference>)
    ensures r.None? <==> forall o :: o in owners ==> o.kind != kind
    ensures r.Some? ==> exists i :: 0 <= i < |owners| && owners[i] == r.value && r.value.kind == kind
                                 && forall j :: 0 <= j < i ==> owners[j].kind != kind
  {
    if owners == [] then None
    else if owners[0].kind == kind then
      Some(owners[0])
    else
      var r := FirstOwner(owners[1..], kind);
      assert owners == [owners[0]] + owners[1..];
      assert r.Some? ==> exists i :: 0 <= i < |owners| && owners[i] == r.value && r.value.kind == kind
                                  && forall j :: 0 <= j < i ==> owners[j].kind != kind by {
        if r.Some? {
          var i :| && 0 <= i < |owners[1..]| && owners[1..][i] == r.value
                   && forall j :: 0 <= j < i ==> owners[1..][j].kind != kind;
          assert owners[i + 1] == r.value;
          assert forall j :: 0 <= j < i + 1 ==> owners[j].kind != kind by {
            forall j | 0 <= j < i + 1 ensures owners[j].kind != kind {
              if j > 0 { assert owners[j] == owners[1..][j - 1]; }
            }
          }
        }
      }
      r
  }

  function GetNodeNameDirect(m: Meta): string {
    match m.nodeNameAnnotation
    case Some(name) => name
    case None => m.name
  }

  function GetNodeNameFromMachine(ref: OwnerReference, machines: Machines): NameResult {
    match machines(ref.name)
    case NodeRef(name) => Name(name)
    case _ => NameError
  }

  predicate OwnedBy(m: Meta, kind: string) {
    exists o :: o in m.owners && o.kind == kind
  }

  /** The `i`th owner is the first Machine among them. */
  predicate FirstMachineAt(m: Meta, i: nat) {
    i < |m.owners| && m.owners[i].kind == "Machine" && forall j :: 0 <= j < i ==> m.owners[j].kind != "Machine"
  }

  /**
   The annotation, or else the name, if a NodeHealthCheck owns the remediation or no Machine does; otherwise the node
   that the first owning Machine refers to, if it can be read and refers to one.
   */
  function GetNodeName(m: Meta, machines: Machines): (r: NameResult)
    ensures OwnedBy(m, "NodeHealthCheck") || !OwnedBy(m, "Machine") ==>
              r == Name(if m.nodeNameAnnotation.Some? then m.nodeNameAnnotation.value else m.name)
    ensures forall i: nat :: !OwnedBy(m, "NodeHealthCheck") && FirstMachineAt(m, i) ==>
              r == match machines(m.owners[i].name) case NodeRef(name) => Name(name) case _ => NameError
  {
    if FirstOwner(m.owners, NODE_HEALTH_CHECK_KIND).Some? then
      Name(GetNodeNameDirect(m))
    else
      match FirstOwner(m.owners, MACHINE_KIND)
      case Some(ref) => GetNodeNameFromMachine(ref, machines)
      case None => Name(GetNodeNameDirect(m))
  }

  function IsSnrMatching(m: Meta, machines: Machines, nodeName: string, machineName: string): MatchResult {
    var owner := FirstOwner(m.owners, MACHINE_KIND);
    if owner.Some? && machineName == owner.value.name then
      Match(true, "")
    else
      match GetNodeName(m, machines)
      case Name(name) => Match(name == nodeName, name)
      case NameError => MatchError
  }

  /** The name an agent passes for its own machine: none. */
  const AGENT_MACHINE_NAME := ""

  /** The shortcut by machine name is taken although the agent knows no machine name. */
  predicate NamelessMachineOwner(m: Meta) {
    var owner := FirstOwner(m.owners, MACHINE_KIND);
    owner.Some? && owner.value.name == AGENT_MACHINE_NAME
  }

  /**
   Every agent agrees with the manager about the remediated node (it acts on the remediation exactly when the manager
   resolves it to the agent's node) if and only if the remediation is not owned by a Machine with an empty name.
   With such an owner, every agent takes the remediation for its own.
   */
  lemma AgentAgreesWithManager(m: Meta, machines: Machines)
    ensures !NamelessMachineOwner(m) <==>
            forall myNode: string :: IsSnrMatching(m, machines, myNode, AGENT_MACHINE_NAME).Match? &&
                                     IsSnrMatching(m, machines, myNode, AGENT_MACHINE_NAME).matches <==>
                                     GetNodeName(m, machines) == Name(myNode)
    ensures NamelessMachineOwner(m) ==>
            forall myNode: string :: IsSnrMatching(m, machines, myNode, AGENT_MACHINE_NAME) == Match(true, "")
    ensures !NamelessMachineOwner(m) ==>
            forall myNode: string :: IsSnrMatching(m, machines, myNode, AGENT_MACHINE_NAME) ==
                                     match GetNodeName(m, machines)
                                     case Name(name) => Match(name == myNode, name)
                                     case NameError => MatchError
  {
    if NamelessMachineOwner(m) {
      var a, b := "a", "b";
      assert a[0] != b[0];
      assert IsSnrMatching(m, machines, a, AGENT_MACHINE_NAME) == Match(true, "");
      assert IsSnrMatching(m, machines, b, AGENT_MACHINE_NAME) == Match(true, "");
      assert !(GetNodeName(m, machines) == Name(a) && GetNodeName(m, machines) == Name(b));
    }
  }
}
