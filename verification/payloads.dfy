/**
 The four actions the service executes — `GrantAccess`, `RevokeAccess`,
 `AddSolutionComponent` and `RemoveSolutionComponent` — as the JSON objects
 they send, with their members in the order the object literals list them.
 */
module Payloads {
  import opened Options
  import opened JsValues
  import opened Entities
  import RecordTemplates

  /** A JSON value: a primitive or an object with ordered members. */
  datatype Json = Prim(v: Value) | Object(members: seq<Member>)
  datatype Member = Member(key: string, value: Json)

  /** The value of the first member named `key`. */
  function Lookup(members: seq<Member>, key: string): (r: Option<Json>)
    ensures r.None? <==> forall k :: 0 <= k < |members| ==> members[k].key != key
    decreases |members|
  {
    if |members| == 0 then None
    else if members[0].key == key then Some(members[0].value)
    else Lookup(members[1..], key)
  }

  /** Lookup finds the first member with the name. */
  lemma {:induction false} LookupFirst(members: seq<Member>, key: string, k: nat)
    requires k < |members| && members[k].key == key
    requires forall j :: 0 <= j < k ==> members[j].key != key
    ensures Lookup(members, key) == Some(members[k].value)
    decreases k
  {
    if k > 0 {
      assert members[0].key != key;
      LookupFirst(members[1..], key, k - 1);
    }
  }

  /** Property access `j[key]`: a member of an object, `undefined` otherwise. */
  function Prop(j: Json, key: string): Json
  {
    if j.Prim? then Prim(Undefined)
    else match Lookup(j.members, key)
      case None => Prim(Undefined)
      case Some(v) => v
  }

  /** Distinct member names, as in every object literal here. */
  predicate DistinctKeys(members: seq<Member>)
  {
    forall i, j :: 0 <= i < j < |members| ==> members[i].key != members[j].key
  }

  /** In an object with distinct member names, reading a member's name gives
      that member's value. */
  lemma PropOfDistinct(members: seq<Member>, k: nat)
    requires DistinctKeys(members) && k < |members|
    ensures Prop(Object(members), members[k].key) == members[k].value
  {
    LookupFirst(members, members[k].key, k);
  }

  /** `Str(s)` as a JSON value. */
  function StrJson(s: string): Json
  {
    Prim(Str(s))
  }

  const WorkflowType := "Microsoft.Dynamics.CRM.workflow"
  const SystemUserType := "Microsoft.Dynamics.CRM.systemuser"
  const TeamType := "Microsoft.Dynamics.CRM.team"

  /** `@odata.type` of a principal: a user is a `systemuser`, anything else a team. */
  function PrincipalType(kind: OwnerKind): string
  {
    if kind == User then SystemUserType else TeamType
  }

  /** The owner kind an `@odata.type` names, if it names one. */
  function KindOfType(t: string): (r: Option<OwnerKind>)
    ensures r.Some? ==> PrincipalType(r.value) == t
  {
    if t == SystemUserType then Some(User) else if t == TeamType then Some(Team) else None
  }

  lemma KindOfTypeRoundTrip(kind: OwnerKind)
    ensures KindOfType(PrincipalType(kind)) == Some(kind)
  {
  }

  /** `{workflowid: flow.id, "@odata.type": …workflow}`. */
  function TargetOf(flow: Flow): Json
  {
    Object([Member("workflowid", Prim(flow.id)), Member("@odata.type", StrJson(WorkflowType))])
  }

  /** `{ownerid: owner.id, "@odata.type": …}`. */
  function PrincipalOf(owner: Owner): Json
  {
    Object([Member("ownerid", Prim(owner.id)), Member("@odata.type", StrJson(PrincipalType(owner.kind)))])
  }

  /** The owner a principal object names: its id and its kind. */
  function OwnerOfPrincipal(j: Json): Option<(Value, OwnerKind)>
  {
    match (Prop(j, "ownerid"), Prop(j, "@odata.type"))
    case (Prim(id), Prim(Str(t))) =>
      (match KindOfType(t) case Some(kind) => Some((id, kind)) case None => None)
    case _ => None
  }

  /** A principal object names its owner's id and kind, and nothing else
      about the owner. */
  lemma PrincipalNamesOwner(owner: Owner)
    ensures OwnerOfPrincipal(PrincipalOf(owner)) == Some((owner.id, owner.kind))
  {
    PropOfDistinct(PrincipalOf(owner).members, 0);
    PropOfDistinct(PrincipalOf(owner).members, 1);
    KindOfTypeRoundTrip(owner.kind);
  }

  /** The access rights the platform defines, with the bit each one sets in an
      access-rights mask. */
  datatype AccessRight = Read | Write | Append | AppendTo | Create | Delete | Share | Assign

  function RightBit(r: AccessRight): bv32
  {
    match r
    case Read => 1
    case Write => 2
    case Append => 4
    case AppendTo => 16
    case Create => 32
    case Delete => 65536
    case Share => 262144
    case Assign => 524288
  }

  /** The name of a right in the `AccessMask` text of `GrantAccess`. */
  function RightName(r: AccessRight): string
  {
    match r
    case Read => "ReadAccess"
    case Write => "WriteAccess"
    case Append => "AppendAccess"
    case AppendTo => "AppendToAccess"
    case Create => "CreateAccess"
    case Delete => "DeleteAccess"
    case Share => "ShareAccess"
    case Assign => "AssignAccess"
  }

  /** The rights `addCoOwner` grants, in the order its mask text lists them. */
  const GrantedRights: seq<AccessRight> := [Read, Write, Append, AppendTo, Create, Delete, Share, Assign]

  /** The names of `rights` separated by `", "`. */
  function RightsText(rights: seq<AccessRight>): string
    decreases |rights|
  {
    if |rights| == 0 then ""
    else if |rights| == 1 then RightName(rights[0])
    else RightName(rights[0]) + ", " + RightsText(rights[1..])
  }

  /** The mask with the bits of `rights` set. */
  function MaskOf(rights: seq<AccessRight>): bv32
    decreases |rights|
  {
    if |rights| == 0 then 0 else RightBit(rights[0]) | MaskOf(rights[1..])
  }

  /** `"ReadAccess, WriteAccess, …, AssignAccess"`. */
  const GrantedMaskText := RightsText(GrantedRights)

  /** The rights `addCoOwner` grants make up exactly the mask `getCoOwners`
      filters on, so a principal granted access by `addCoOwner` (and holding no
      other rights on the flow) is one the co-owner query finds. */
  lemma GrantedRightsMakeCoOwnerMask()
    ensures MaskOf(GrantedRights) as int == RecordTemplates.CoOwnerMask
  {
  }

  /** The granted rights are the eight distinct rights, each with its own bit. */
  lemma GrantedRightsAreDistinct()
    ensures forall i, j :: 0 <= i < j < |GrantedRights| ==> RightBit(GrantedRights[i]) & RightBit(GrantedRights[j]) == 0
  {
  }

  /** `{Target, PrincipalAccess: {AccessMask, Principal}}`. */
  function GrantPayload(flow: Flow, owner: Owner): Json
  {
    Object([
      Member("Target", TargetOf(flow)),
      Member("PrincipalAccess", Object([
        Member("AccessMask", StrJson(GrantedMaskText)),
        Member("Principal", PrincipalOf(owner))]))])
  }

  /** `{Target, Revokee}`. */
  function RevokePayload(flow: Flow, owner: Owner): Json
  {
    Object([Member("Target", TargetOf(flow)), Member("Revokee", PrincipalOf(owner))])
  }

  /** The component type of a workflow. */
  const WorkflowComponentType := 29

  /** `{SolutionUniqueName, ComponentType: 29, ComponentId, AddRequiredComponents: false}`. */
  function AddComponentPayload(flow: Flow, solution: Solution): Json
  {
    Object([
      Member("SolutionUniqueName", Prim(solution.uniqueName)),
      Member("ComponentType", Prim(Num(WorkflowComponentType))),
      Member("ComponentId", Prim(flow.id)),
      Member("AddRequiredComponents", Prim(Bool(false)))])
  }

  /** `{SolutionUniqueName, ComponentType: 29, SolutionComponent: {solutioncomponentid}}`. */
  function RemoveComponentPayload(flow: Flow, solution: Solution): Json
  {
    Object([
      Member("SolutionUniqueName", Prim(solution.uniqueName)),
      Member("ComponentType", Prim(Num(WorkflowComponentType))),
      Member("SolutionComponent", Object([Member("solutioncomponentid", Prim(flow.id))]))])
  }

  /** `DataverseAPI.ExecuteRequest`. */
  datatype ExecuteRequest = ExecuteRequest(operationName: string, operationType: string, parameters: Json)

  function GrantRequest(flow: Flow, owner: Owner): ExecuteRequest
  {
    ExecuteRequest("GrantAccess", "action", GrantPayload(flow, owner))
  }

  function RevokeRequest(flow: Flow, owner: Owner): ExecuteRequest
  {
    ExecuteRequest("RevokeAccess", "action", RevokePayload(flow, owner))
  }

  function AddComponentRequest(flow: Flow, solution: Solution): ExecuteRequest
  {
    ExecuteRequest("AddSolutionComponent", "action", AddComponentPayload(flow, solution))
  }

  function RemoveComponentRequest(flow: Flow, solution: Solution): ExecuteRequest
  {
    ExecuteRequest("RemoveSolutionComponent", "action", RemoveComponentPayload(flow, solution))
  }

  /** Grant and revoke target the flow by its id. */
  lemma GrantAndRevokeTargetFlow(flow: Flow, owner: Owner)
    ensures Prop(GrantPayload(flow, owner), "Target") == TargetOf(flow)
    ensures Prop(RevokePayload(flow, owner), "Target") == TargetOf(flow)
    ensures Prop(TargetOf(flow), "workflowid") == Prim(flow.id)
    ensures Prop(TargetOf(flow), "@odata.type") == StrJson(WorkflowType)
  {
    PropOfDistinct(GrantPayload(flow, owner).members, 0);
    PropOfDistinct(RevokePayload(flow, owner).members, 0);
    PropOfDistinct(TargetOf(flow).members, 0);
    PropOfDistinct(TargetOf(flow).members, 1);
  }

  /** Grant and revoke name the same principal object. */
  lemma GrantAndRevokeNameSamePrincipal(flow: Flow, owner: Owner)
    ensures Prop(Prop(GrantPayload(flow, owner), "PrincipalAccess"), "Principal") == PrincipalOf(owner)
    ensures Prop(RevokePayload(flow, owner), "Revokee") == PrincipalOf(owner)
  {
    var access := Prop(GrantPayload(flow, owner), "PrincipalAccess");
    PropOfDistinct(GrantPayload(flow, owner).members, 1);
    PropOfDistinct(access.members, 1);
    PropOfDistinct(RevokePayload(flow, owner).members, 1);
  }

  /** The principal object carries the owner's id and is tagged `systemuser`
      exactly when the owner is a user, `team` otherwise. */
  lemma PrincipalTagsKind(owner: Owner)
    ensures Prop(PrincipalOf(owner), "ownerid") == Prim(owner.id)
    ensures Prop(PrincipalOf(owner), "@odata.type") == StrJson(SystemUserType) <==> owner.kind == User
    ensures Prop(PrincipalOf(owner), "@odata.type") == StrJson(TeamType) <==> owner.kind == Team
  {
    PropOfDistinct(PrincipalOf(owner).members, 0);
    PropOfDistinct(PrincipalOf(owner).members, 1);
  }

  /** The grant always asks for the same fixed set of rights. */
  lemma GrantMaskIsFixed(flow: Flow, owner: Owner)
    ensures Prop(Prop(GrantPayload(flow, owner), "PrincipalAccess"), "AccessMask") == StrJson(RightsText(GrantedRights))
  {
    var access := Prop(GrantPayload(flow, owner), "PrincipalAccess");
    PropOfDistinct(GrantPayload(flow, owner).members, 1);
    PropOfDistinct(access.members, 0);
  }

  /** Adding a flow to a solution names the solution by its unique name and
      the component as a workflow with the flow's id, without its required
      components. */
  lemma AddComponentPayloadShape(flow: Flow, solution: Solution)
    ensures Prop(AddComponentPayload(flow, solution), "SolutionUniqueName") == Prim(solution.uniqueName)
    ensures Prop(AddComponentPayload(flow, solution), "ComponentType") == Prim(Num(29))
    ensures Prop(AddComponentPayload(flow, solution), "ComponentId") == Prim(flow.id)
    ensures Prop(AddComponentPayload(flow, solution), "AddRequiredComponents") == Prim(Bool(false))
  {
    var ms := AddComponentPayload(flow, solution).members;
    PropOfDistinct(ms, 0);
    PropOfDistinct(ms, 1);
    PropOfDistinct(ms, 2);
    PropOfDistinct(ms, 3);
  }

  /** Removing a flow from a solution names the same solution and component
      type as adding it, and the flow's id as the solution component. */
  lemma RemoveComponentPayloadShape(flow: Flow, solution: Solution)
    ensures Prop(RemoveComponentPayload(flow, solution), "SolutionUniqueName")
         == Prop(AddComponentPayload(flow, solution), "SolutionUniqueName")
    ensures Prop(RemoveComponentPayload(flow, solution), "ComponentType")
         == Prop(AddComponentPayload(flow, solution), "ComponentType")
    ensures Prop(Prop(RemoveComponentPayload(flow, solution), "SolutionComponent"), "solutioncomponentid")
         == Prim(flow.id)
  {
    var ms := RemoveComponentPayload(flow, solution).members;
    AddComponentPayloadShape(flow, solution);
    PropOfDistinct(ms, 0);
    PropOfDistinct(ms, 1);
    PropOfDistinct(ms, 2);
    PropOfDistinct(Prop(RemoveComponentPayload(flow, solution), "SolutionComponent").members, 0);
  }

  /** The payloads read only the flow's id, the owner's id and kind, and the
      solution's unique name: flows, owners and solutions that agree on those
      give the same requests. */
  lemma PayloadsReadOnlyIdentity(f1: Flow, f2: Flow, o1: Owner, o2: Owner, s1: Solution, s2: Solution)
    requires f1.id == f2.id && o1.id == o2.id && o1.kind == o2.kind && s1.uniqueName == s2.uniqueName
    ensures GrantRequest(f1, o1) == GrantRequest(f2, o2)
    ensures RevokeRequest(f1, o1) == RevokeRequest(f2, o2)
    ensures AddComponentRequest(f1, s1) == AddComponentRequest(f2, s2)
    ensures RemoveComponentRequest(f1, s1) == RemoveComponentRequest(f2, s2)
  {
  }
}
