/**
 The methods of `dvService`, each as a function from its arguments, whether
 the service has a connection, and the platform's reply to the request it
 sends, to the requests it sends and how its promise settles.

 The platform is not modelled: a query's reply (rows or an error) and an
 action's reply (done or an error) are inputs.
 */
module Service {
  import opened Options
  import opened JsValues
  import opened Seqs
  import opened Text
  import opened Entities
  import opened ODataQueries
  import opened FlowsFetch
  import opened RecordTemplates
  import opened Payloads

  /** What the service asks the platform for. */
  datatype Request = QueryData(path: string) | FetchXmlQuery(xml: string) | Execute(request: ExecuteRequest)

  /** The platform's answer to a query: the `value` rows, or the error it
      rejected with. */
  datatype QueryReply = Rows(rows: seq<Row>) | QueryFailed(error: Value)

  /** The platform's answer to an action. */
  datatype ActionReply = Done | ActionFailed(error: Value)

  /** Why a promise rejected: the missing connection, or the platform's error. */
  datatype Failure = NoConnection | Remote(error: Value)

  /** How a returned promise settles. `Unsettled` is a promise that never
      settles: an exception thrown inside an `async` promise executor is lost. */
  datatype Outcome<T> = Resolved(value: T) | Rejected(failure: Failure) | Unsettled

  /** The requests a method sends, in order, and how its promise settles. */
  datatype Call<T> = Call(sent: seq<Request>, outcome: Outcome<T>)

  /** The settlement of a query promise: the shaped rows, or the platform's error. */
  function Shaped<T>(reply: QueryReply, shape: seq<Row> -> T): (r: Outcome<T>)
    ensures reply.Rows? <==> r.Resolved?
    ensures reply.Rows? ==> r.value == shape(reply.rows)
    ensures reply.QueryFailed? ==> r == Rejected(Remote(reply.error))
  {
    match reply
    case Rows(rows) => Resolved(shape(rows))
    case QueryFailed(e) => Rejected(Remote(e))
  }

  /** Most methods call `reject` when there is no connection but do not
      return, so they still send their request; the first settlement wins. */
  function RejectWithoutConnection<T>(connected: bool, settled: Outcome<T>): (r: Outcome<T>)
    ensures !connected ==> r == Rejected(NoConnection)
    ensures connected ==> r == settled
  {
    if connected then settled else Rejected(NoConnection)
  }

  // ------------------------------------------------------------- queries

  function SolutionsFromRows(rows: seq<Row>): seq<Solution>
  {
    Map(SolutionFromRow, rows)
  }

  /** `getSolutions(managed)`: without a connection it throws before querying. */
  function GetSolutions(connected: bool, managed: bool, reply: QueryReply): (c: Call<seq<Solution>>)
    ensures !connected ==> c == Call([], Rejected(NoConnection))
    ensures connected ==> c.sent == [QueryData(SolutionsFilter(managed))]
    ensures connected ==> ManagedFlagOf(c.sent[0].path) == Some(managed)
    ensures connected && reply.Rows? ==> c.outcome.Resolved? && |c.outcome.value| == |reply.rows|
    ensures connected && reply.QueryFailed? ==> c.outcome == Rejected(Remote(reply.error))
  {
    SolutionsFilterFollowsFlag(managed);
    if !connected then Call([], Rejected(NoConnection))
    else Call([QueryData(SolutionsFilter(managed))], Shaped(reply, SolutionsFromRows))
  }

  /** The solutions come back one per row, in the rows' order, and the rows the
      platform returns for a list of solutions give that list back. */
  lemma GetSolutionsOnePerRow(managed: bool, rows: seq<Row>, solutions: seq<Solution>)
    ensures forall i :: 0 <= i < |rows| ==>
      GetSolutions(true, managed, Rows(rows)).outcome.value[i] == SolutionFromRow(rows[i])
    ensures GetSolutions(true, managed, Rows(Map(SolutionRow, solutions))).outcome == Resolved(solutions)
  {
    SolutionRowsRoundTrip(solutions);
  }

  lemma SolutionRowsRoundTrip(solutions: seq<Solution>)
    ensures SolutionsFromRows(Map(SolutionRow, solutions)) == solutions
  {
    var back := SolutionsFromRows(Map(SolutionRow, solutions));
    forall i | 0 <= i < |solutions|
      ensures back[i] == solutions[i]
    {
      SolutionRowRoundTrip(solutions[i]);
    }
  }

  function FlowsFromRows(rows: seq<Row>): seq<Flow>
  {
    Map(FlowFromRow, rows)
  }

  /** `getFlowsBySolution(solution)`: without a connection the executor throws,
      nothing is sent and the promise never settles. */
  function GetFlowsBySolution(connected: bool, solution: Option<Solution>, reply: QueryReply): (c: Call<seq<Flow>>)
    ensures !connected ==> c == Call([], Unsettled)
    ensures connected ==> c.sent == [FetchXmlQuery(FlowsFetchXml(solution))]
    ensures connected && solution.Some? ==>
      Between(c.sent[0].xml, SolutionIdPrefix, SolutionIdSuffix) == Some(JoinText(solution.value.id))
    ensures connected && reply.Rows? ==> c.outcome.Resolved? && |c.outcome.value| == |reply.rows|
    ensures connected && reply.QueryFailed? ==> c.outcome == Rejected(Remote(reply.error))
  {
    if !connected then Call([], Unsettled)
    else
      var sent := [FetchXmlQuery(FlowsFetchXml(solution))];
      if solution.None? then Call(sent, Shaped(reply, FlowsFromRows))
      else
        FlowsFetchLinksOnSolutionId(solution.value);
        Call(sent, Shaped(reply, FlowsFromRows))
  }

  /** The flows come back one per row, in the rows' order, with no filtering on
      the client; the rows of a list of flows give that list back. */
  lemma GetFlowsOnePerRow(solution: Option<Solution>, rows: seq<Row>, flows: seq<Flow>)
    ensures forall i :: 0 <= i < |rows| ==>
      GetFlowsBySolution(true, solution, Rows(rows)).outcome.value[i] == FlowFromRow(rows[i])
    ensures GetFlowsBySolution(true, solution, Rows(Map(FlowRow, flows))).outcome == Resolved(flows)
  {
    FlowRowsRoundTrip(flows);
  }

  lemma FlowRowsRoundTrip(flows: seq<Flow>)
    ensures FlowsFromRows(Map(FlowRow, flows)) == flows
  {
    var back := FlowsFromRows(Map(FlowRow, flows));
    forall i | 0 <= i < |flows|
      ensures back[i] == flows[i]
    {
      FlowRowRoundTrip(flows[i]);
    }
  }

  /** `o.id != flow.ownerId`, JavaScript's loose inequality. */
  function KeepCoOwner(ownerId: Value): Owner -> bool
  {
    (o: Owner) => !LooseEquals(o.id, ownerId)
  }

  /** The co-owners a list of rows maps to: one owner per row, less those whose
      id is loosely equal to the primary owner's id. */
  function CoOwnersOf(ownerId: Value, rows: seq<Row>): (r: seq<Owner>)
    ensures |r| <= |rows|
    ensures forall o :: o in r ==> !LooseEquals(o.id, ownerId)
  {
    Filter(KeepCoOwner(ownerId), Map(CoOwnerFromRow, rows))
  }

  function CoOwnersFromRows(ownerId: Value): seq<Row> -> seq<Owner>
  {
    rows => CoOwnersOf(ownerId, rows)
  }

  /** `getCoOwners(flow)`: the principals holding the owner's rights on the
      flow, less the primary owner. Without a connection the executor throws,
      nothing is sent and the promise never settles. */
  function GetCoOwners(connected: bool, flow: Flow, reply: QueryReply): (c: Call<seq<Owner>>)
    ensures !connected ==> c == Call([], Unsettled)
    ensures connected ==> c.sent == [FetchXmlQuery(CoOwnersFetchXml(flow.id))]
    ensures connected && reply.Rows? ==> c.outcome == Resolved(CoOwnersOf(flow.ownerId, reply.rows))
    ensures connected && reply.QueryFailed? ==> c.outcome == Rejected(Remote(reply.error))
  {
    if !connected then Call([], Unsettled)
    else Call([FetchXmlQuery(CoOwnersFetchXml(flow.id))], Shaped(reply, CoOwnersFromRows(flow.ownerId)))
  }

  /** The co-owner list, row by row: the owner a row maps to is kept exactly
      when its id is not loosely equal to the primary owner's id. */
  function CoOwnersByRow(rows: seq<Row>, ownerId: Value): seq<Owner>
    decreases |rows|
  {
    if |rows| == 0 then []
    else
      var o := CoOwnerFromRow(rows[0]);
      (if LooseEquals(o.id, ownerId) then [] else [o]) + CoOwnersByRow(rows[1..], ownerId)
  }

  /** `getCoOwners` keeps every other mapped row, in the rows' order. */
  lemma {:induction false} CoOwnersOfIsRowByRow(ownerId: Value, rows: seq<Row>)
    ensures CoOwnersOf(ownerId, rows) == CoOwnersByRow(rows, ownerId)
    decreases |rows|
  {
    var keep := KeepCoOwner(ownerId);
    if |rows| > 0 {
      var mapped := Map(CoOwnerFromRow, rows);
      assert mapped == [CoOwnerFromRow(rows[0])] + Map(CoOwnerFromRow, rows[1..]);
      FilterConcat(keep, [CoOwnerFromRow(rows[0])], Map(CoOwnerFromRow, rows[1..]));
      FilterSingleton(keep, CoOwnerFromRow(rows[0]));
      CoOwnersOfIsRowByRow(ownerId, rows[1..]);
    }
  }

  /** A row whose `principalid` is the primary owner's id is dropped, and any
      other row is kept as its owner. Between two id strings that is plain
      equality; a numeric `principalid` is also dropped when the owner id is
      its decimal text, as `!=` converts the text to a number. */
  lemma CoOwnersOfOneRow(ownerId: Value, row: Row)
    ensures Get(row, "principalid") == ownerId ==> CoOwnersOf(ownerId, [row]) == []
    ensures !LooseEquals(Get(row, "principalid"), ownerId) ==> CoOwnersOf(ownerId, [row]) == [CoOwnerFromRow(row)]
    ensures Get(row, "principalid").Str? && ownerId.Str? ==>
      (CoOwnersOf(ownerId, [row]) == [] <==> Get(row, "principalid") == ownerId)
    ensures Get(row, "principalid").Num? && ownerId == Str(DecimalText(Get(row, "principalid").n)) ==>
      CoOwnersOf(ownerId, [row]) == []
  {
    var id := Get(row, "principalid");
    assert Map(CoOwnerFromRow, [row]) == [CoOwnerFromRow(row)];
    FilterSingleton(KeepCoOwner(ownerId), CoOwnerFromRow(row));
    if id == ownerId {
      LooseEqualsReflexive(ownerId);
    }
    if id.Str? && ownerId.Str? {
      LooseEqualsSameKind(id, ownerId);
    }
    if id.Num? {
      LooseEqualsNumberAndText(id.n);
    }
  }

  function UsersFromRows(rows: seq<Row>): seq<Owner>
  {
    Map(UserFromRow, rows)
  }

  function TeamsFromRows(rows: seq<Row>): seq<Owner>
  {
    Map(TeamFromRow, rows)
  }

  /** `getUsers(search)`: up to ten users whose full name contains the text. */
  function GetUsers(connected: bool, search: string, reply: QueryReply): (c: Call<seq<Owner>>)
    ensures c.sent == [QueryData(UsersFilter(search))]
    ensures Unsplice(c.sent[0].path, UsersOpen, UsersClose) == Some(search)
    ensures !connected ==> c.outcome == Rejected(NoConnection)
    ensures connected && reply.Rows? ==> c.outcome.Resolved? && |c.outcome.value| == |reply.rows|
    ensures connected && reply.QueryFailed? ==> c.outcome == Rejected(Remote(reply.error))
    ensures c.outcome.Resolved? ==> forall o :: o in c.outcome.value ==> o.kind == User
  {
    OwnerFiltersCarrySearchVerbatim(search);
    Call([QueryData(UsersFilter(search))], RejectWithoutConnection(connected, Shaped(reply, UsersFromRows)))
  }

  /** `getTeams(search)`: up to ten teams whose name contains the text. */
  function GetTeams(connected: bool, search: string, reply: QueryReply): (c: Call<seq<Owner>>)
    ensures c.sent == [QueryData(TeamsFilter(search))]
    ensures Unsplice(c.sent[0].path, TeamsOpen, TeamsClose) == Some(search)
    ensures !connected ==> c.outcome == Rejected(NoConnection)
    ensures connected && reply.Rows? ==> c.outcome.Resolved? && |c.outcome.value| == |reply.rows|
    ensures connected && reply.QueryFailed? ==> c.outcome == Rejected(Remote(reply.error))
    ensures c.outcome.Resolved? ==> forall o :: o in c.outcome.value ==> o.kind == Team
  {
    OwnerFiltersCarrySearchVerbatim(search);
    Call([QueryData(TeamsFilter(search))], RejectWithoutConnection(connected, Shaped(reply, TeamsFromRows)))
  }

  /** `getUsersAndTeams(search)`: both searches run; the users followed by the
      teams. When either search fails, the awaited `Promise.all` throws inside
      the executor and the promise never settles. */
  function GetUsersAndTeams(connected: bool, search: string, users: QueryReply, teams: QueryReply)
    : (c: Call<seq<Owner>>)
    ensures c.sent == [QueryData(UsersFilter(search)), QueryData(TeamsFilter(search))]
    ensures !connected ==> c.outcome == Rejected(NoConnection)
    ensures connected && (users.QueryFailed? || teams.QueryFailed?) ==> c.outcome == Unsettled
    ensures c.outcome.Resolved? <==> connected && users.Rows? && teams.Rows?
  {
    var u := GetUsers(connected, search, users);
    var t := GetTeams(connected, search, teams);
    var both := match (u.outcome, t.outcome)
      case (Resolved(a), Resolved(b)) => Resolved(a + b)
      case _ => Unsettled;
    Call(u.sent + t.sent, RejectWithoutConnection(connected, both))
  }

  /** The combined search is exactly the user results followed by the team
      results: lengths add up, each part keeps its order, nothing is merged. */
  lemma UsersAndTeamsConcatenates(search: string, users: seq<Row>, teams: seq<Row>)
    ensures GetUsersAndTeams(true, search, Rows(users), Rows(teams)).outcome
         == Resolved(GetUsers(true, search, Rows(users)).outcome.value
                     + GetTeams(true, search, Rows(teams)).outcome.value)
    ensures var all := GetUsersAndTeams(true, search, Rows(users), Rows(teams)).outcome.value;
            |all| == |users| + |teams|
            && (forall i :: 0 <= i < |users| ==> all[i] == UserFromRow(users[i]))
            && (forall i :: 0 <= i < |teams| ==> all[|users| + i] == TeamFromRow(teams[i]))
  {
  }

  /** `sol.uniquename !== "Default"`. */
  predicate NotDefault(row: Row)
  {
    Get(row, "uniquename") != Str("Default")
  }

  function SearchedSolutions(rows: seq<Row>): (r: seq<Solution>)
    ensures forall s :: s in r ==> s.uniqueName != Str("Default")
  {
    var kept := Filter(NotDefault, rows);
    var r := Map(SolutionFromRow, kept);
    assert forall i :: 0 <= i < |r| ==> r[i].uniqueName == Get(kept[i], "uniquename") && kept[i] in kept;
    r
  }

  /** `searchSolutions(search)`: up to twenty unmanaged solutions whose names
      contain the text, less the default solution. */
  function SearchSolutions(connected: bool, search: string, reply: QueryReply): (c: Call<seq<Solution>>)
    ensures c.sent == [QueryData(SolutionSearchFilter(search))]
    ensures SolutionSearchTextOf(c.sent[0].path) == Some(search)
    ensures Unsplice(c.sent[0].path[..|SearchOpen| + |search| + 2], SearchOpen, "") == Some(search)
    ensures Unsplice(c.sent[0].path[|SearchOpen| + |search| + 2..], SearchMiddle, SearchClose) == Some(search)
    ensures StartsWith(c.sent[0].path, UnmanagedOnly) && EndsWith(c.sent[0].path, TopTwenty)
    ensures !connected ==> c.outcome == Rejected(NoConnection)
    ensures connected && reply.Rows? ==> c.outcome == Resolved(SearchedSolutions(reply.rows))
    ensures connected && reply.Rows? ==> |c.outcome.value| <= |reply.rows|
    ensures connected && reply.QueryFailed? ==> c.outcome == Rejected(Remote(reply.error))
    ensures c.outcome.Resolved? ==> forall s :: s in c.outcome.value ==> s.uniqueName != Str("Default")
  {
    SolutionSearchCarriesSearchVerbatim(search);
    SolutionSearchScope(search);
    Call([QueryData(SolutionSearchFilter(search))],
         RejectWithoutConnection(connected, Shaped(reply, SearchedSolutions)))
  }

  /** The solution search, row by row: a row is mapped exactly when its unique
      name is not `"Default"`. */
  function SolutionsByRow(rows: seq<Row>): seq<Solution>
    decreases |rows|
  {
    if |rows| == 0 then []
    else (if NotDefault(rows[0]) then [SolutionFromRow(rows[0])] else []) + SolutionsByRow(rows[1..])
  }

  /** `searchSolutions` drops exactly the default rows and maps the rest in order. */
  lemma {:induction false} SearchSolutionsIsRowByRow(search: string, rows: seq<Row>)
    ensures SearchSolutions(true, search, Rows(rows)).outcome == Resolved(SolutionsByRow(rows))
    decreases |rows|
  {
    if |rows| > 0 {
      assert rows == [rows[0]] + rows[1..];
      FilterConcat(NotDefault, [rows[0]], rows[1..]);
      FilterSingleton(NotDefault, rows[0]);
      SearchSolutionsIsRowByRow(search, rows[1..]);
      MapConcat(SolutionFromRow, Filter(NotDefault, [rows[0]]), Filter(NotDefault, rows[1..]));
    }
  }

  /** `getFlowSolutions(flow)`: the solutions the flow belongs to, one per row. */
  function GetFlowSolutions(connected: bool, flow: Flow, reply: QueryReply): (c: Call<seq<Solution>>)
    ensures c.sent == [FetchXmlQuery(FlowSolutionsFetchXml(flow.id))]
    ensures !connected ==> c.outcome == Rejected(NoConnection)
    ensures connected && reply.Rows? ==> c.outcome.Resolved? && |c.outcome.value| == |reply.rows|
    ensures connected && reply.QueryFailed? ==> c.outcome == Rejected(Remote(reply.error))
  {
    Call([FetchXmlQuery(FlowSolutionsFetchXml(flow.id))],
         RejectWithoutConnection(connected, Shaped(reply, SolutionsFromRows)))
  }

  /** The flow's solutions come back one per row, in order, with no filtering
      on the client. */
  lemma GetFlowSolutionsOnePerRow(flow: Flow, rows: seq<Row>, solutions: seq<Solution>)
    ensures forall i :: 0 <= i < |rows| ==>
      GetFlowSolutions(true, flow, Rows(rows)).outcome.value[i] == SolutionFromRow(rows[i])
    ensures GetFlowSolutions(true, flow, Rows(Map(SolutionRow, solutions))).outcome == Resolved(solutions)
  {
    GetSolutionsOnePerRow(false, rows, solutions);
  }

  // ------------------------------------------------------------- actions

  /** The settlement of an action promise. */
  function Acted(connected: bool, reply: ActionReply): (r: Outcome<()>)
    ensures r.Resolved? <==> connected && reply.Done?
    ensures !connected ==> r == Rejected(NoConnection)
    ensures connected && reply.ActionFailed? ==> r == Rejected(Remote(reply.error))
    ensures !r.Unsettled?
  {
    RejectWithoutConnection(connected, if reply.Done? then Resolved(()) else Rejected(Remote(reply.error)))
  }

  /** `addCoOwner(flow, owner)`: one `GrantAccess` action on the flow for the
      owner's principal, asking for the fixed set of rights. */
  function AddCoOwner(connected: bool, flow: Flow, owner: Owner, reply: ActionReply): (c: Call<()>)
    ensures |c.sent| == 1 && c.sent[0].Execute?
    ensures var req := c.sent[0].request;
      && req.operationName == "GrantAccess" && req.operationType == "action"
      && Prop(Prop(req.parameters, "Target"), "workflowid") == Prim(flow.id)
      && OwnerOfPrincipal(Prop(Prop(req.parameters, "PrincipalAccess"), "Principal")) == Some((owner.id, owner.kind))
      && Prop(Prop(req.parameters, "PrincipalAccess"), "AccessMask") == StrJson(RightsText(GrantedRights))
    ensures c.outcome == Acted(connected, reply)
  {
    GrantAndRevokeTargetFlow(flow, owner);
    GrantAndRevokeNameSamePrincipal(flow, owner);
    PrincipalNamesOwner(owner);
    GrantMaskIsFixed(flow, owner);
    Call([Execute(GrantRequest(flow, owner))], Acted(connected, reply))
  }

  /** `removeCoOwner(flow, owner)`: one `RevokeAccess` action on the flow for
      the owner's principal. */
  function RemoveCoOwner(connected: bool, flow: Flow, owner: Owner, reply: ActionReply): (c: Call<()>)
    ensures |c.sent| == 1 && c.sent[0].Execute?
    ensures var req := c.sent[0].request;
      && req.operationName == "RevokeAccess" && req.operationType == "action"
      && Prop(Prop(req.parameters, "Target"), "workflowid") == Prim(flow.id)
      && OwnerOfPrincipal(Prop(req.parameters, "Revokee")) == Some((owner.id, owner.kind))
    ensures c.outcome == Acted(connected, reply)
  {
    GrantAndRevokeTargetFlow(flow, owner);
    GrantAndRevokeNameSamePrincipal(flow, owner);
    PrincipalNamesOwner(owner);
    Call([Execute(RevokeRequest(flow, owner))], Acted(connected, reply))
  }

  /** `addSolution(flow, solution)`: one `AddSolutionComponent` action adding
      the flow, as a workflow component, to the solution named by its unique
      name, without its required components. */
  function AddSolution(connected: bool, flow: Flow, solution: Solution, reply: ActionReply): (c: Call<()>)
    ensures |c.sent| == 1 && c.sent[0].Execute?
    ensures var req := c.sent[0].request;
      && req.operationName == "AddSolutionComponent" && req.operationType == "action"
      && Prop(req.parameters, "SolutionUniqueName") == Prim(solution.uniqueName)
      && Prop(req.parameters, "ComponentType") == Prim(Num(29))
      && Prop(req.parameters, "ComponentId") == Prim(flow.id)
      && Prop(req.parameters, "AddRequiredComponents") == Prim(Bool(false))
    ensures c.outcome == Acted(connected, reply)
  {
    AddComponentPayloadShape(flow, solution);
    Call([Execute(AddComponentRequest(flow, solution))], Acted(connected, reply))
  }

  /** `removeSolution(flow, solution)`: one `RemoveSolutionComponent` action
      removing the flow's component from the solution named by its unique
      name. */
  function RemoveSolution(connected: bool, flow: Flow, solution: Solution, reply: ActionReply): (c: Call<()>)
    ensures |c.sent| == 1 && c.sent[0].Execute?
    ensures var req := c.sent[0].request;
      && req.operationName == "RemoveSolutionComponent" && req.operationType == "action"
      && Prop(req.parameters, "SolutionUniqueName") == Prim(solution.uniqueName)
      && Prop(req.parameters, "ComponentType") == Prim(Num(29))
      && Prop(Prop(req.parameters, "SolutionComponent"), "solutioncomponentid") == Prim(flow.id)
    ensures c.outcome == Acted(connected, reply)
  {
    AddComponentPayloadShape(flow, solution);
    RemoveComponentPayloadShape(flow, solution);
    Call([Execute(RemoveComponentRequest(flow, solution))], Acted(connected, reply))
  }

  /** Adding and then removing a co-owner act on the same flow and the same
      principal, and adding and then removing a solution act on the same
      solution and component. */
  lemma ActionsPairUp(flow: Flow, owner: Owner, solution: Solution, connected: bool, reply: ActionReply)
    ensures AddCoOwner(connected, flow, owner, reply).sent[0].request.operationName == "GrantAccess"
    ensures RemoveCoOwner(connected, flow, owner, reply).sent[0].request.operationName == "RevokeAccess"
    ensures Prop(Prop(AddCoOwner(connected, flow, owner, reply).sent[0].request.parameters, "PrincipalAccess"), "Principal")
         == Prop(RemoveCoOwner(connected, flow, owner, reply).sent[0].request.parameters, "Revokee")
    ensures Prop(AddSolution(connected, flow, solution, reply).sent[0].request.parameters, "SolutionUniqueName")
         == Prop(RemoveSolution(connected, flow, solution, reply).sent[0].request.parameters, "SolutionUniqueName")
  {
    GrantAndRevokeNameSamePrincipal(flow, owner);
    RemoveComponentPayloadShape(flow, solution);
  }
}
