/**
 The result handling of the two search components, `SearchBoxCtl` (owners)
 and `SearchSolution` (solutions): a state record holding the component's
 React state, and pure transitions for starting a search, handling its reply,
 and selecting an item. Both components follow the same rules; they differ in
 the item type, the list of items already present, and the dispatch guard.
 */
module SearchBoxes {
  import opened Options
  import opened JsValues
  import opened Seqs
  import opened Entities
  import opened Service

  /** The component state: `query`, `loadingText`, `results`, `isLoading` and
      `selectedItem` (the id of the item last selected, `null` at first). */
  datatype State<T> = State(
    query: string,
    loadingText: string,
    results: seq<T>,
    isLoading: bool,
    selectedItem: Option<Value>)

  /** The state a component starts in. */
  function Initial<T>(): (s: State<T>)
    ensures s.query == "" && s.results == [] && !s.isLoading && s.selectedItem.None?
  {
    State("", "Loading...", [], false, None)
  }

  const SearchingText := "Searching..."
  const NoResultsText := "No results found"

  /** `present.every(p => p.id !== item.id)`: no item already present has the
      item's id (strict inequality). */
  predicate Absent<T>(idOf: T -> Value, present: seq<T>, item: T)
  {
    forall k :: 0 <= k < |present| ==> idOf(present[k]) != idOf(item)
  }

  function AbsentFrom<T>(idOf: T -> Value, present: seq<T>): T -> bool
  {
    item => Absent(idOf, present, item)
  }

  /** The items of a response a component shows: those no present item shares
      an id with, in response order. */
  function Shown<T>(idOf: T -> Value, present: seq<T>, response: seq<T>): (r: seq<T>)
    ensures |r| <= |response|
    ensures forall x :: x in r ==> x in response && Absent(idOf, present, x)
    ensures forall i :: 0 <= i < |response| && Absent(idOf, present, response[i]) ==> response[i] in r
  {
    Filter(AbsentFrom(idOf, present), response)
  }

  /** Starting a search: the query is set, the list shows as loading with
      "Searching...", and nothing else changes. */
  function Start<T>(s: State<T>, query: string): (r: State<T>)
    ensures r.query == query && r.isLoading && r.loadingText == SearchingText
    ensures r.results == s.results && r.selectedItem == s.selectedItem
  {
    s.(query := query, isLoading := true, loadingText := SearchingText)
  }

  /** The reply handler: with nothing left to show, "No results found" is
      displayed and the list stays loading with the old results; otherwise
      loading ends and the results are the items shown. */
  function OnResponse<T>(s: State<T>, idOf: T -> Value, present: seq<T>, response: seq<T>): (r: State<T>)
    ensures r.query == s.query && r.selectedItem == s.selectedItem
    ensures Shown(idOf, present, response) == [] ==>
      r.loadingText == NoResultsText && r.isLoading == s.isLoading && r.results == s.results
    ensures Shown(idOf, present, response) != [] ==>
      !r.isLoading && r.loadingText == s.loadingText && r.results == Shown(idOf, present, response)
  {
    var shown := Shown(idOf, present, response);
    if |shown| == 0 then s.(loadingText := NoResultsText)
    else s.(isLoading := false, results := shown)
  }

  /** The error handler: loading ends; the results and the text stay. */
  function OnError<T>(s: State<T>): (r: State<T>)
    ensures !r.isLoading
    ensures r.query == s.query && r.loadingText == s.loadingText
    ensures r.results == s.results && r.selectedItem == s.selectedItem
  {
    s.(isLoading := false)
  }

  /** A whole search: start it, then handle how the service's promise settles.
      A promise that never settles leaves the list loading. */
  function Search<T>(s: State<T>, query: string, idOf: T -> Value, present: seq<T>, reply: Outcome<seq<T>>)
    : (r: State<T>)
    ensures r.query == query && r.selectedItem == s.selectedItem
    ensures reply.Resolved? ==> r == OnResponse(Start(s, query), idOf, present, reply.value)
    ensures reply.Rejected? ==> !r.isLoading && r.loadingText == SearchingText && r.results == s.results
    ensures reply.Unsettled? ==> r == Start(s, query)
  {
    var started := Start(s, query);
    match reply
    case Resolved(response) => OnResponse(started, idOf, present, response)
    case Rejected(_) => OnError(started)
    case Unsettled => started
  }

  /** A reply always ends in one of two states: loading ended with the shown
      items as results, or still loading with "No results found" and the old
      results. */
  lemma ResponseEndsInOneOfTwoStates<T>(s: State<T>, query: string, idOf: T -> Value, present: seq<T>, response: seq<T>)
    ensures var r := Search(s, query, idOf, present, Resolved(response));
      || (!r.isLoading && r.results == Shown(idOf, present, response) && |r.results| > 0)
      || (r.isLoading && r.loadingText == NoResultsText && r.results == s.results)
    ensures var r := Search(s, query, idOf, present, Resolved(response));
      r.isLoading <==> forall i :: 0 <= i < |response| ==> !Absent(idOf, present, response[i])
  {
    FilterEmpty(AbsentFrom(idOf, present), response);
  }

  /** The shown items, item by item: an item is kept exactly when no present
      item has its id. */
  function ShownByItem<T>(idOf: T -> Value, present: seq<T>, response: seq<T>): seq<T>
    decreases |response|
  {
    if |response| == 0 then []
    else (if Absent(idOf, present, response[0]) then [response[0]] else [])
         + ShownByItem(idOf, present, response[1..])
  }

  /** The results are exactly the response items whose id is not already
      present, in response order. */
  lemma {:induction false} ShownIsItemByItem<T>(idOf: T -> Value, present: seq<T>, response: seq<T>)
    ensures Shown(idOf, present, response) == ShownByItem(idOf, present, response)
    decreases |response|
  {
    if |response| > 0 {
      var p := AbsentFrom(idOf, present);
      assert response == [response[0]] + response[1..];
      FilterConcat(p, [response[0]], response[1..]);
      FilterSingleton(p, response[0]);
      ShownIsItemByItem(idOf, present, response[1..]);
    }
  }

  /** Nothing already present is shown again: no shown item shares an id with
      a present one, and with nothing present the whole response is shown. */
  lemma ShownExcludesPresent<T>(idOf: T -> Value, present: seq<T>, response: seq<T>)
    ensures forall x, k :: x in Shown(idOf, present, response) && 0 <= k < |present|
              ==> idOf(present[k]) != idOf(x)
    ensures present == [] ==> Shown(idOf, present, response) == response
  {
    if present == [] {
      FilterKeepsAll(AbsentFrom(idOf, present), response);
    }
  }

  // ------------------------------------------------------------- owners

  /** `query || query.length >= 1`, the owner search's dispatch guard. */
  predicate OwnerSearchDispatches(query: string)
  {
    Truthy(Str(query)) || |query| >= 1
  }

  /** `query && query.length >= 1`, the solution search's dispatch guard. */
  predicate SolutionSearchDispatches(query: string)
  {
    Truthy(Str(query)) && |query| >= 1
  }

  /** Both guards dispatch exactly the non-empty queries. */
  lemma DispatchExactlyNonEmpty(query: string)
    ensures OwnerSearchDispatches(query) <==> query != ""
    ensures SolutionSearchDispatches(query) <==> query != ""
  {
  }

  /** The owner search box's effect: a non-empty query searches users and
      teams, hiding the flow's current co-owners; an empty one does nothing. */
  function OwnerEffect(s: State<Owner>, coOwners: seq<Owner>, reply: Outcome<seq<Owner>>): (r: State<Owner>)
    ensures s.query == "" ==> r == s
    ensures s.query != "" ==> r == Search(s, s.query, OwnerId, coOwners, reply)
  {
    DispatchExactlyNonEmpty(s.query);
    if OwnerSearchDispatches(s.query) then Search(s, s.query, OwnerId, coOwners, reply) else s
  }

  function OwnerId(o: Owner): Value
  {
    o.id
  }

  /** `handleSelectItem` in the owner search box: the item's id becomes the
      selection, the query and the results are cleared, and the owner handed
      back has the item's name, id and type. */
  function SelectOwner(s: State<Owner>, item: Owner): (r: (State<Owner>, Owner))
    ensures r.0.query == "" && r.0.results == [] && r.0.selectedItem == Some(item.id)
    ensures r.0.isLoading == s.isLoading && r.0.loadingText == s.loadingText
    ensures r.1 == item
  {
    (s.(selectedItem := Some(item.id), query := "", results := []), Owner(item.name, item.id, item.kind))
  }

  // ------------------------------------------------------------- solutions

  function SolutionId(s: Solution): Value
  {
    s.id
  }

  /** The solution search box's effect: a non-empty query searches unmanaged
      solutions, hiding those the flow already belongs to. */
  function SolutionEffect(s: State<Solution>, current: seq<Solution>, reply: Outcome<seq<Solution>>)
    : (r: State<Solution>)
    ensures s.query == "" ==> r == s
    ensures s.query != "" ==> r == Search(s, s.query, SolutionId, current, reply)
  {
    DispatchExactlyNonEmpty(s.query);
    if SolutionSearchDispatches(s.query) then Search(s, s.query, SolutionId, current, reply) else s
  }

  /** `handleSelectItem` in the solution search box: the solution handed back
      has the item's name, unique name, id and managed flag. */
  function SelectSolution(s: State<Solution>, item: Solution): (r: (State<Solution>, Solution))
    ensures r.0.query == "" && r.0.results == [] && r.0.selectedItem == Some(item.id)
    ensures r.0.isLoading == s.isLoading && r.0.loadingText == s.loadingText
    ensures r.1 == item
  {
    (s.(selectedItem := Some(item.id), query := "", results := []),
     Solution(item.name, item.uniqueName, item.id, item.managed))
  }

  /** Picking one of the results a reply showed hands back an item of that
      reply that no present item shares an id with, records its id, and
      clears the list. */
  lemma SelectShownItem(s: State<Owner>, t: State<Solution>, coOwners: seq<Owner>, owners: seq<Owner>,
                        current: seq<Solution>, solutions: seq<Solution>, i: int, j: int)
    requires 0 <= i < |Shown(OwnerId, coOwners, owners)|
    requires 0 <= j < |Shown(SolutionId, current, solutions)|
    ensures var r := OnResponse(s, OwnerId, coOwners, owners);
      var (u, o) := SelectOwner(r, r.results[i]);
      && o in owners && (forall k :: 0 <= k < |coOwners| ==> coOwners[k].id != o.id)
      && u.selectedItem == Some(o.id) && u.results == [] && u.query == ""
    ensures var r := OnResponse(t, SolutionId, current, solutions);
      var (u, sol) := SelectSolution(r, r.results[j]);
      && sol in solutions && (forall k :: 0 <= k < |current| ==> current[k].id != sol.id)
      && u.selectedItem == Some(sol.id) && u.results == [] && u.query == ""
  {
    var shownOwners := Shown(OwnerId, coOwners, owners);
    assert shownOwners[i] in shownOwners;
    var shownSolutions := Shown(SolutionId, current, solutions);
    assert shownSolutions[j] in shownSolutions;
  }

  /** The owner search shows the users-then-teams result less the current
      co-owners, in order. */
  lemma OwnerSearchShowsNewOwners(s: State<Owner>, coOwners: seq<Owner>, search: string,
                                  users: seq<Row>, teams: seq<Row>)
    requires search != ""
    ensures var all := GetUsersAndTeams(true, search, Rows(users), Rows(teams)).outcome.value;
      var r := OwnerEffect(s.(query := search), coOwners, Resolved(all));
      (Shown(OwnerId, coOwners, all) != [] ==> r.results == ShownByItem(OwnerId, coOwners, all) && !r.isLoading)
  {
    var all := GetUsersAndTeams(true, search, Rows(users), Rows(teams)).outcome.value;
    ShownIsItemByItem(OwnerId, coOwners, all);
  }
}
