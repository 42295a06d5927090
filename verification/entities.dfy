/**
 The three entities the service hands to the user interface — solutions,
 owners and flows — and the functions that build one entity from one result
 row. Every field keeps the JavaScript value found in the row, so an absent
 column shows up as `undefined` exactly as it does in the program.
 */
module Entities {
  import opened JsValues

  /** `SolutionMeta(name, uniqueName, id, managed)`. */
  datatype Solution = Solution(name: Value, uniqueName: Value, id: Value, managed: Value)

  /** The `"user" | "team"` tag of an owner. */
  datatype OwnerKind = User | Team

  /** `OwnerMeta(name, id, type)`. */
  datatype Owner = Owner(name: Value, id: Value, kind: OwnerKind)

  /** `FlowMeta(name, id, ownerName, ownerId, type, category, description,
      createdBy, state)`. */
  datatype Flow = Flow(
    name: Value,
    id: Value,
    ownerName: Value,
    ownerId: Value,
    flowType: Value,
    category: Value,
    description: Value,
    createdBy: Value,
    state: Value)

  /** The annotation the platform appends to a column name for the column's
      display text. */
  const FormattedSuffix := "@OData.Community.Display.V1.FormattedValue"

  function Formatted(column: string): string
  {
    column + FormattedSuffix
  }

  const OwnerIdColumn := "_ownerid_value"
  const CreatedByColumn := "_createdby_value"
  const StateColumn := "statecode"

  /** The columns a solution is read from, in constructor order. */
  const SolutionColumns: seq<string> := ["friendlyname", "uniquename", "solutionid", "ismanaged"]

  /** The columns a flow is read from, in constructor order. */
  const FlowColumns: seq<string> := [
    "name", "workflowid", Formatted(OwnerIdColumn), OwnerIdColumn, "type", "category",
    "description", Formatted(CreatedByColumn), Formatted(StateColumn)
  ]

  /** Two rows agree on some columns when they read the same value there. */
  predicate AgreeOn(a: Row, b: Row, columns: seq<string>)
  {
    forall k :: 0 <= k < |columns| ==> Get(a, columns[k]) == Get(b, columns[k])
  }

  function SolutionFromRow(row: Row): (s: Solution)
    ensures [s.name, s.uniqueName, s.id, s.managed]
         == [Get(row, SolutionColumns[0]), Get(row, SolutionColumns[1]),
             Get(row, SolutionColumns[2]), Get(row, SolutionColumns[3])]
  {
    Solution(Get(row, "friendlyname"), Get(row, "uniquename"), Get(row, "solutionid"), Get(row, "ismanaged"))
  }

  /** The row the platform returns for a solution record. */
  function SolutionRow(s: Solution): Row
  {
    map["friendlyname" := s.name, "uniquename" := s.uniqueName,
        "solutionid" := s.id, "ismanaged" := s.managed]
  }

  /** Reading a solution back from its own row gives the solution. */
  lemma SolutionRowRoundTrip(s: Solution)
    ensures SolutionFromRow(SolutionRow(s)) == s
  {
  }

  /** A solution depends on its four columns and nothing else in the row. */
  lemma SolutionReadsOnlyItsColumns(a: Row, b: Row)
    requires AgreeOn(a, b, SolutionColumns)
    ensures SolutionFromRow(a) == SolutionFromRow(b)
  {
    assert Get(a, SolutionColumns[0]) == Get(b, SolutionColumns[0]);
    assert Get(a, SolutionColumns[1]) == Get(b, SolutionColumns[1]);
    assert Get(a, SolutionColumns[2]) == Get(b, SolutionColumns[2]);
    assert Get(a, SolutionColumns[3]) == Get(b, SolutionColumns[3]);
  }

  /** One row of the co-owner query: the display name is the `user` alias when
      it is truthy and the `team` alias otherwise, the id is `principalid`, and
      the owner is a user exactly when the `user` alias is truthy. */
  function CoOwnerFromRow(row: Row): (o: Owner)
    ensures o.id == Get(row, "principalid")
    ensures o.kind == User <==> Truthy(Get(row, "user"))
    ensures o.kind == User ==> o.name == Get(row, "user")
    ensures o.kind == Team ==> o.name == Get(row, "team")
  {
    Owner(Or(Get(row, "user"), Get(row, "team")), Get(row, "principalid"),
          if Truthy(Get(row, "user")) then User else Team)
  }

  /** A co-owner has a truthy name exactly when one of the two aliases is truthy;
      a row with neither alias becomes a team with a falsy name. */
  lemma CoOwnerNameTruthiness(row: Row)
    ensures Truthy(CoOwnerFromRow(row).name) <==> Truthy(Get(row, "user")) || Truthy(Get(row, "team"))
    ensures !Truthy(Get(row, "user")) && !Truthy(Get(row, "team"))
            ==> CoOwnerFromRow(row).kind == Team && !Truthy(CoOwnerFromRow(row).name)
  {
  }

  /** A user row of the co-owner query names its user whatever the team alias
      holds, and a team row names its team. */
  lemma CoOwnerFromAliasRows(user: Value, team: Value, id: Value)
    requires Truthy(user) && Truthy(team)
    ensures CoOwnerFromRow(map["user" := user, "principalid" := id]) == Owner(user, id, User)
    ensures CoOwnerFromRow(map["team" := team, "principalid" := id]) == Owner(team, id, Team)
    ensures CoOwnerFromRow(map["user" := user, "team" := team, "principalid" := id]).kind == User
  {
  }

  /** One row of the user search: always a user. */
  function UserFromRow(row: Row): (o: Owner)
    ensures o.kind == User
    ensures o.name == Get(row, "fullname") && o.id == Get(row, "systemuserid")
  {
    Owner(Get(row, "fullname"), Get(row, "systemuserid"), User)
  }

  /** One row of the team search: always a team. */
  function TeamFromRow(row: Row): (o: Owner)
    ensures o.kind == Team
    ensures o.name == Get(row, "name") && o.id == Get(row, "teamid")
  {
    Owner(Get(row, "name"), Get(row, "teamid"), Team)
  }

  /** The user and team mappers invert the rows the platform returns for an owner. */
  lemma OwnerRowsRoundTrip(o: Owner)
    ensures o.kind == User ==> UserFromRow(map["fullname" := o.name, "systemuserid" := o.id]) == o
    ensures o.kind == Team ==> TeamFromRow(map["name" := o.name, "teamid" := o.id]) == o
  {
  }

  function FlowFromRow(row: Row): (f: Flow)
    ensures [f.name, f.id, f.ownerName, f.ownerId, f.flowType, f.category,
             f.description, f.createdBy, f.state]
         == [Get(row, FlowColumns[0]), Get(row, FlowColumns[1]), Get(row, FlowColumns[2]),
             Get(row, FlowColumns[3]), Get(row, FlowColumns[4]), Get(row, FlowColumns[5]),
             Get(row, FlowColumns[6]), Get(row, FlowColumns[7]), Get(row, FlowColumns[8])]
  {
    Flow(
      Get(row, "name"),
      Get(row, "workflowid"),
      Get(row, Formatted(OwnerIdColumn)),
      Get(row, OwnerIdColumn),
      Get(row, "type"),
      Get(row, "category"),
      Get(row, "description"),
      Get(row, Formatted(CreatedByColumn)),
      Get(row, Formatted(StateColumn)))
  }

  /** The row the platform returns for a flow record. */
  function FlowRow(f: Flow): Row
  {
    map["name" := f.name, "workflowid" := f.id, Formatted(OwnerIdColumn) := f.ownerName,
        OwnerIdColumn := f.ownerId, "type" := f.flowType, "category" := f.category,
        "description" := f.description, Formatted(CreatedByColumn) := f.createdBy,
        Formatted(StateColumn) := f.state]
  }

  /** Reading a flow back from its own row gives the flow: no two of its fields
      are read from the same column. */
  lemma FlowRowRoundTrip(f: Flow)
    ensures FlowFromRow(FlowRow(f)) == f
  {
  }

  /** The owner's and creator's names and the state are the display texts, while
      the owner id is the raw lookup value. */
  lemma FlowReadsFormattedValues(row: Row)
    ensures FlowFromRow(row).ownerName == Get(row, Formatted(OwnerIdColumn))
    ensures FlowFromRow(row).ownerId == Get(row, OwnerIdColumn)
    ensures FlowFromRow(row).createdBy == Get(row, Formatted(CreatedByColumn))
    ensures FlowFromRow(row).state == Get(row, Formatted(StateColumn))
  {
  }

  /** A flow depends on its nine columns and nothing else in the row. */
  lemma FlowReadsOnlyItsColumns(a: Row, b: Row)
    requires AgreeOn(a, b, FlowColumns)
    ensures FlowFromRow(a) == FlowFromRow(b)
  {
    var fa := FlowFromRow(a);
    var fb := FlowFromRow(b);
    var la := [fa.name, fa.id, fa.ownerName, fa.ownerId, fa.flowType, fa.category,
               fa.description, fa.createdBy, fa.state];
    var lb := [fb.name, fb.id, fb.ownerName, fb.ownerId, fb.flowType, fb.category,
               fb.description, fb.createdBy, fb.state];
    assert la == lb;
    assert la[0] == lb[0] && la[1] == lb[1] && la[2] == lb[2] && la[3] == lb[3];
    assert la[4] == lb[4] && la[5] == lb[5] && la[6] == lb[6] && la[7] == lb[7] && la[8] == lb[8];
  }
}
