# FlowFinder data-access core, in Dafny

FlowFinder lists the cloud flows of a Dataverse environment and manages their
co-owners and solution memberships. Its logic lives in the data-access class
`dvService`. The two search components also hold a small piece of
result-handling logic: `SearchBoxCtl` searches owners and `SearchSolution`
searches solutions. This project models that logic as pure functions over
immutable datatypes and proves what each piece promises.

- **JsValues** models the JavaScript values a row holds. It covers
  truthiness, `||`, `String(v)`, how `join` renders a value, and loose
  equality `==`. A row is a `map<string, Value>`, and a missing key reads
  `undefined`.
- **Seqs** models `Array.prototype.map` and `filter`.
- **Text** models substring search, `String.prototype.replace` with a string
  pattern (first occurrence, with `$$ $& $\` $'` substitution), and
  `join("")`.
- **Entities** defines the solution, owner and flow records and the mappers
  from a row to each.
- **ODataQueries** builds the OData filter strings. It also defines the
  reader that recovers the spliced search text, and the OData string-literal
  reader that shows what an unescaped quote does.
- **FlowsFetch** builds the flows FetchXML document, with or without the join
  on solution components.
- **RecordTemplates** holds the co-owner and flow-solution FetchXML templates
  and fills their `{RECORD-ID}` slot.
- **Payloads** builds the JSON payloads and execute requests of the four
  actions. It also holds the access rights whose bits make up the co-owner
  mask 852023.
- **Service** models each `dvService` method. Its inputs are the method's
  arguments, whether the service holds a connection, and the platform's reply.
  Its result is the list of requests sent and how the returned promise
  settles: resolved, rejected, or never settled.
- **SearchBoxes** is the search components' state record and its transitions
  (start, reply, error, selection), plus the two dispatch guards. Both
  components use the same transitions. The solution component
  (`src/components/SeachSolutions.tsx:48-67`) follows the same lines as the
  owner component cited below.

Some facts about the code that a reader might not expect:

- The search texts are spliced into the filters with no quote escaping.
- `getSolutions` has no condition on the default solution.
- The flows document has no ordering and no condition excluding "Active".
- Without a connection, `getSolutions`, `getFlowsBySolution` and
  `getCoOwners` send nothing. The other methods call `reject` without
  returning and still send their request.

## Model

| member | source | states |
|---|---|---|
| Entities.SolutionFromRow | src/services/dataverseService.tsx:31-34 | a solution's name, unique name, id and managed flag are the row's `friendlyname`, `uniquename`, `solutionid` and `ismanaged`, and a missing column reads `undefined` |
| Entities.SolutionRowRoundTrip | src/services/dataverseService.tsx:31-34 | the row holding a solution's four columns maps back to that solution |
| Entities.SolutionReadsOnlyItsColumns | src/services/dataverseService.tsx:31-34 | two rows that agree on those four columns map to the same solution |
| Entities.CoOwnerFromRow | src/services/dataverseService.tsx:134-139 | the id is `principalid`; the type is user exactly when the `user` alias is truthy; a user's name is the `user` alias and a team's name is the `team` alias |
| Entities.CoOwnerNameTruthiness | src/services/dataverseService.tsx:136-138 | the name is truthy exactly when one of the aliases is; a row with neither alias is a team with a falsy name |
| Entities.CoOwnerFromAliasRows | src/services/dataverseService.tsx:136-138 | a row with only a user alias is that user; a row with only a team alias is that team; a row with both is a user |
| Entities.UserFromRow | src/services/dataverseService.tsx:160-163 | a user search row gives a user named by `fullname`, with id `systemuserid` |
| Entities.TeamFromRow | src/services/dataverseService.tsx:180-183 | a team search row gives a team named by `name`, with id `teamid` |
| Entities.OwnerRowsRoundTrip | src/services/dataverseService.tsx:160-183 | the search row of a user or a team maps back to that owner |
| Entities.FlowFromRow | src/services/dataverseService.tsx:82-95 | the nine flow fields are read from their nine columns, in the order of the constructor call |
| Entities.FlowRowRoundTrip | src/services/dataverseService.tsx:82-95 | the row holding a flow's nine columns maps back to that flow |
| Entities.FlowReadsFormattedValues | src/services/dataverseService.tsx:86-92 | the owner name, creator and state come from the `@OData.Community.Display.V1.FormattedValue` keys; the owner id comes from the raw `_ownerid_value` |
| Entities.FlowReadsOnlyItsColumns | src/services/dataverseService.tsx:82-95 | two rows that agree on the nine columns map to the same flow |
| ODataQueries.SolutionsFilter | src/services/dataverseService.tsx:26-29 | the solutions filter starts with the visibility condition and `ismanaged eq`, and ends with the select list and the `createdon desc` ordering |
| ODataQueries.ManagedFlagOf | src/services/dataverseService.tsx:27-29 | reading a managed flag back from a query succeeds only on the filter that flag builds |
| ODataQueries.SolutionsFilterFollowsFlag | src/services/dataverseService.tsx:27-29 | the filter says `ismanaged eq true` exactly when `managed` is true, so it reads back as its flag |
| ODataQueries.UsersFilter | src/services/dataverseService.tsx:158 | the user search filter is capped at `$top=10` |
| ODataQueries.TeamsFilter | src/services/dataverseService.tsx:178 | the team search filter is capped at `$top=10` |
| ODataQueries.OwnerFiltersCarrySearchVerbatim | src/services/dataverseService.tsx:158 | the user and team filters (the team filter is at line 178) are the fixed text with the search spliced in unchanged between quotes, and reading it back gives the search |
| ODataQueries.UnspliceRoundTrip | src/services/dataverseService.tsx:158 | reading back the text spliced between two fixed pieces gives the text, whatever it contains |
| ODataQueries.SolutionSearchFilter | src/services/dataverseService.tsx:209 | the solution search filter splices the search twice: cut after the first copy's closing quote, the first half is the `friendlyname` clause and the second the `uniquename` clause plus the select list and `$top=20`, and each half reads back as the search unchanged; its length is the fixed text plus twice the search |
| ODataQueries.SolutionSearchScope | src/services/dataverseService.tsx:209 | the solution search always starts with `ismanaged eq false` and ends with `$top=20` |
| ODataQueries.SolutionSearchTextOf | src/services/dataverseService.tsx:209 | reading a search back from a query reads both copies on their own and requires them to agree; it succeeds only on the filter that search builds |
| ODataQueries.SolutionSearchCarriesSearchVerbatim | src/services/dataverseService.tsx:209 | the solution search filter reads back, through both copies, as exactly the search text |
| ODataQueries.UsersFilterLiteral | src/services/dataverseService.tsx:158 | with no quote in the search, the OData literal in the user filter is the search, followed by the rest of the filter |
| ODataQueries.UsersFilterCutAtQuote | src/services/dataverseService.tsx:158 | the first quote in the search, when the next character is not a quote, ends the OData literal early: the text after the quote is read as filter syntax, because nothing is escaped |
| FlowsFetch.FlowsFetchLines | src/services/dataverseService.tsx:46-76 | the document's lines start with the fourteen fixed head lines and end with the two closing tags |
| FlowsFetch.FlowsFetchXmlIsLines | src/services/dataverseService.tsx:46-76 | the document is its lines joined with `""`, whether it is built in one piece or in two |
| FlowsFetch.FlowsFetchAlwaysRestricts | src/services/dataverseService.tsx:47-59 | every flows document starts with `<fetch top='50'>` and holds the `type eq 1` and `category eq 5` conditions |
| FlowsFetch.FlowsFetchLinkIffSolution | src/services/dataverseService.tsx:62-76 | the join on `solutioncomponent` is one of the document's lines exactly when a solution is given |
| FlowsFetch.FlowsFetchLinksOnSolutionId | src/services/dataverseService.tsx:63-73 | with a solution, the document is fixed text around the solution id as `join` renders it, and the id reads back from between them |
| FlowsFetch.FlowsFetchDistinguishesSolutions | src/services/dataverseService.tsx:62-76 | documents for ids that render differently differ, and a document with a solution differs from the one without |
| RecordTemplates.FillSlot | src/services/dataverseService.tsx:128 | in a template whose fixed text has no `{`, the slot is the only `{RECORD-ID}`; `replace` puts the substituted `String(flow.id)` there and leaves the rest unchanged; with no `$` in the id the id lands verbatim, and with neither `$` nor `{` in the id no placeholder is left over |
| RecordTemplates.CoOwnersFetchXmlFillsSlot | src/services/dataverseService.tsx:112-128 | the co-owner template has exactly one `{RECORD-ID}`, and the document is the template with the flow id in that slot |
| RecordTemplates.CoOwnersFetchXmlFiltersOnMask | src/services/dataverseService.tsx:125 | the co-owner document filters `accessrightsmask` on 852023 |
| RecordTemplates.MaskTextDenotesMask | src/services/dataverseService.tsx:125 | the mask text in the template denotes the number 852023 |
| RecordTemplates.CoOwnersFetchXmlNamesFlow | src/services/dataverseService.tsx:124-128 | for ids whose text has no `$`, the flow id's text reads back from its slot, so ids with different texts give different co-owner documents; ids with the same text (`1` and `"1"`) give the same document, and `$$` and `$` collide through `replace` |
| RecordTemplates.FlowSolutionsFetchXmlFillsSlot | src/services/dataverseService.tsx:292-307 | the flow-solutions template has exactly one `{RECORD-ID}`, and the document is the template with the flow id in that slot |
| RecordTemplates.FlowSolutionsFetchXmlExcludesDefault | src/services/dataverseService.tsx:299 | the flow-solutions document keeps the `uniquename ne Default` condition |
| Payloads.KindOfType | src/services/dataverseService.tsx:238 | a principal's `@odata.type` is read back as the owner type that produces it |
| Payloads.KindOfTypeRoundTrip | src/services/dataverseService.tsx:238 | each owner type is tagged with its own `@odata.type`, so the two tags differ |
| Payloads.PrincipalNamesOwner | src/services/dataverseService.tsx:236-239 | the principal object reads back as the owner's id and type |
| Payloads.PrincipalTagsKind | src/services/dataverseService.tsx:238 | the principal is tagged `systemuser` exactly when the owner is a user, `team` exactly when it is a team, and carries `ownerid` = the owner's id |
| Payloads.GrantAndRevokeTargetFlow | src/services/dataverseService.tsx:232 | grant and revoke both target `workflowid` = the flow id, tagged `Microsoft.Dynamics.CRM.workflow` (the revoke target is at line 264) |
| Payloads.GrantAndRevokeNameSamePrincipal | src/services/dataverseService.tsx:236-267 | grant's `PrincipalAccess.Principal` and revoke's `Revokee` are the same principal object |
| Payloads.GrantMaskIsFixed | src/services/dataverseService.tsx:234-235 | grant's `AccessMask` is the fixed list of eight rights, joined with `", "`, whatever the flow and owner |
| Payloads.GrantedRightsMakeCoOwnerMask | src/services/dataverseService.tsx:235 | the eight rights granted OR together to 852023, the mask the co-owner query filters on |
| Payloads.GrantedRightsAreDistinct | src/services/dataverseService.tsx:235 | no two granted rights share a bit |
| Payloads.AddComponentPayloadShape | src/services/dataverseService.tsx:332-337 | the add payload carries the solution's unique name, `ComponentType` 29, `ComponentId` = the flow id and `AddRequiredComponents` false |
| Payloads.RemoveComponentPayloadShape | src/services/dataverseService.tsx:362-366 | the remove payload carries the solution's unique name, `ComponentType` 29 and `SolutionComponent.solutioncomponentid` = the flow id |
| Payloads.PayloadsReadOnlyIdentity | src/services/dataverseService.tsx:231-241 | the requests depend only on the flow id, the owner's id and type, and the solution's unique name |
| Service.GetSolutions | src/services/dataverseService.tsx:19-37 | without a connection nothing is sent and the promise rejects; otherwise the one request sent is the solutions filter, whose managed flag reads back as `managed`; one solution comes back per row, and a query error rejects with that error |
| Service.GetSolutionsOnePerRow | src/services/dataverseService.tsx:31-34 | the i-th solution is the i-th row's, and the rows of a list of solutions give back that list |
| Service.SolutionRowsRoundTrip | src/services/dataverseService.tsx:31-34 | mapping the rows of a list of solutions gives back the list |
| Service.GetFlowsBySolution | src/services/dataverseService.tsx:39-103 | without a connection nothing is sent and the promise never settles; otherwise the flows document is sent, and with a solution the id read back from its join condition is the solution's id; one flow comes back per row, and a query error rejects with that error |
| Service.GetFlowsOnePerRow | src/services/dataverseService.tsx:82-96 | the i-th flow is the i-th row's, with no filtering, and the rows of a list of flows give back that list |
| Service.FlowRowsRoundTrip | src/services/dataverseService.tsx:82-95 | mapping the rows of a list of flows gives back the list |
| Service.CoOwnersOf | src/services/dataverseService.tsx:134-142 | no owner left is loosely equal by id to the primary owner, and there are at most as many as rows |
| Service.GetCoOwners | src/services/dataverseService.tsx:105-149 | without a connection nothing is sent and the promise never settles; otherwise the co-owner document for `flow.id` is sent, the rows are mapped less the primary owner, and a query error rejects with that error |
| Service.CoOwnersOfIsRowByRow | src/services/dataverseService.tsx:142 | the co-owners are exactly the mapped rows whose id is not loosely equal to `flow.ownerId`, in row order |
| Service.CoOwnersOfOneRow | src/services/dataverseService.tsx:142 | a row whose `principalid` is the owner id is dropped, and a row whose id is not loosely equal to it is kept; between two id strings a row is dropped exactly when they are equal; a numeric `principalid` whose decimal text is the owner id is dropped too |
| Service.GetUsers | src/services/dataverseService.tsx:151-170 | the user filter is sent even without a connection, which rejects; the search reads back unchanged from the request; otherwise there is one user per row, and a query error rejects with that error |
| Service.GetTeams | src/services/dataverseService.tsx:172-190 | the team filter is sent even without a connection, which rejects; the search reads back unchanged from the request; otherwise there is one team per row, and a query error rejects with that error |
| Service.GetUsersAndTeams | src/services/dataverseService.tsx:192-200 | both filters are sent; the promise resolves exactly when connected and both searches succeed; a failed search leaves it unsettled |
| Service.UsersAndTeamsConcatenates | src/services/dataverseService.tsx:197-198 | the result is the users followed by the teams: lengths add up, each part keeps its order, nothing is merged |
| Service.SearchedSolutions | src/services/dataverseService.tsx:212-217 | no solution left has the unique name `"Default"` |
| Service.SearchSolutions | src/services/dataverseService.tsx:202-224 | the solution search filter is sent even without a connection, which rejects; the request reads back as the search, each of its two copies on its own, starts with `ismanaged eq false` and ends with `$top=20`; when connected, rows resolve to the mapped non-default rows, no longer than the rows, and a query error rejects with that error |
| Service.SearchSolutionsIsRowByRow | src/services/dataverseService.tsx:212-217 | exactly the rows whose `uniquename` is `"Default"` are dropped, and the rest are mapped in order |
| Service.GetFlowSolutions | src/services/dataverseService.tsx:286-324 | the flow-solutions document for `flow.id` is sent even without a connection, which rejects; otherwise one solution per row, and a query error rejects with that error |
| Service.GetFlowSolutionsOnePerRow | src/services/dataverseService.tsx:313-316 | the i-th solution is the i-th row's, with no filtering, and the rows of a list of solutions give back that list |
| Service.Acted | src/services/dataverseService.tsx:247-254 | an action resolves exactly when connected and the platform succeeds; it rejects with the missing connection or with the platform's error, and it always settles |
| Service.AddCoOwner | src/services/dataverseService.tsx:226-256 | exactly one `GrantAccess` action is sent, connected or not; it targets the flow's id, its principal reads back as the owner's id and type, and it asks for the fixed rights; it resolves exactly when connected and the platform succeeds |
| Service.RemoveCoOwner | src/services/dataverseService.tsx:258-284 | exactly one `RevokeAccess` action is sent, connected or not; it targets the flow's id and its revokee reads back as the owner's id and type; it resolves exactly when connected and the platform succeeds |
| Service.AddSolution | src/services/dataverseService.tsx:326-355 | exactly one `AddSolutionComponent` action is sent, connected or not, with the solution's unique name, component type 29, the flow's id as component and no required components; it resolves exactly when connected and the platform succeeds |
| Service.RemoveSolution | src/services/dataverseService.tsx:357-382 | exactly one `RemoveSolutionComponent` action is sent, connected or not, with the solution's unique name, component type 29 and the flow's id as solution component; it resolves exactly when connected and the platform succeeds |
| Service.ActionsPairUp | src/services/dataverseService.tsx:242-274 | adding and removing a co-owner name the same principal under `GrantAccess` and `RevokeAccess`; adding and removing a solution name the same unique name |
| SearchBoxes.Initial | src/components/SeachBox.tsx:34-40 | a component starts with an empty query, no results, not loading and nothing selected |
| SearchBoxes.Shown | src/components/SeachBox.tsx:59 | the items shown are response items none of whose ids a present item has, and every such item is shown |
| SearchBoxes.ShownIsItemByItem | src/components/SeachBox.tsx:63 | the items shown are exactly the response items whose id is not already present, in response order |
| SearchBoxes.ShownExcludesPresent | src/components/SeachBox.tsx:59 | no shown item shares an id with a present one, and with nothing present the whole response is shown |
| SearchBoxes.Start | src/components/SeachBox.tsx:53-55 | starting sets the query, turns loading on with "Searching...", and keeps the results and the selection |
| SearchBoxes.OnResponse | src/components/SeachBox.tsx:58-65 | with nothing to show, the text becomes "No results found" and loading and results stay; otherwise loading ends and the results are the items shown |
| SearchBoxes.OnError | src/components/SeachBox.tsx:66-69 | an error ends loading and keeps the results, the text and the query |
| SearchBoxes.Search | src/components/SeachBox.tsx:51-70 | a resolved reply is handled after the start, a rejected one ends loading with the old results, and an unsettled one leaves the list loading |
| SearchBoxes.ResponseEndsInOneOfTwoStates | src/components/SeachBox.tsx:59-64 | after a reply the list is either done with the shown items or still loading with "No results found"; it is still loading exactly when every response item is already present |
| SearchBoxes.DispatchExactlyNonEmpty | src/components/SeachBox.tsx:44 | the owner guard (the query is truthy, or its length is at least 1) and the solution guard (the query is truthy and its length is at least 1, at SeachSolutions.tsx:42) both hold exactly when the query is non-empty |
| SearchBoxes.OwnerEffect | src/components/SeachBox.tsx:43-49 | an empty query changes nothing; a non-empty one runs the owner search, hiding the current co-owners |
| SearchBoxes.OwnerSearchShowsNewOwners | src/components/SeachBox.tsx:56-64 | when an owner search of users and teams has anything new, the results are the users-then-teams list less the current co-owners, in order, and loading ends |
| SearchBoxes.SelectOwner | src/components/SeachBox.tsx:72-77 | selecting clears the query and the results, records the item's id as selected, and hands back an owner equal to the item |
| SearchBoxes.SolutionEffect | src/components/SeachSolutions.tsx:41-46 | an empty query changes nothing; a non-empty one runs the solution search, hiding the flow's current solutions |
| SearchBoxes.SelectSolution | src/components/SeachSolutions.tsx:69-74 | selecting clears the query and the results, records the item's id as selected, and hands back a solution equal to the item |
| SearchBoxes.SelectShownItem | src/components/SeachBox.tsx:58-77 | picking one of the results a reply showed hands back an item of that reply whose id no present item has, records its id as selected and clears the list; the same holds in the solution component (SeachSolutions.tsx:69-74) |

## Left out

- Logging (`onLog`, `console.log`) has no effect on results, so it is not modelled.
- The platform calls (`queryData`, `fetchXmlQuery`, `execute`) are outside this code. Their replies are inputs: rows or an error for a query, done or an error for an action.
- MobX observability and the rendering of the components are presentation. This includes the `loadingText || "Loading..."` fallback and the highlight of the selected item.
- The `useDebounce` timers (`setTimeout`/`clearTimeout`) are timer plumbing. The model starts from the moment the debounced effect runs.
- The owner component also stores the query in an unused `debounceVal` state. That state is not modelled.
- The parallel per-flow enrichment in `flowGrid.tsx` is concurrency, and so is the order in which concurrent replies arrive.
- `getTriggerText` (called at `src/components/flowGrid.tsx:76`) renders a flow's trigger for the grid and is not modelled.
- `viewModel.tsx` and the UI files (`App.tsx`, `flowFinder.tsx`, `coOwnersDrawer.tsx`, `solutionsDrawer.tsx`, `jsonViewer.tsx`) are not modelled. The records are defined from the service's usage.
- `JSON.stringify` is not modelled. The payloads are JSON objects with ordered members, and absent values are not dropped from them.
- JsValues.LooseEquals: numbers are integers of any size, with no double rounding, NaN or fractions, so digit strings beyond 2^53 compare exactly rather than after rounding. A string converts to a number only when it is empty or an optionally signed run of decimal digits; whitespace, hexadecimal and exponent forms are not recognised. Objects are not values here.
- JsValues.ToText: covers integers only, so exponent and fraction forms of `Number::toString` are not modelled.
- Service.GetUsersAndTeams: the promise without a connection is stated as rejected with the missing connection. Any later settlement from `Promise.all` is ignored, as JavaScript does.
- Service.GetSolutions: the thrown `Error` is modelled as the `NoConnection` failure, not as an error message text.
- ODataQueries.SolutionsFilter and the other query texts are built from named fixed pieces. Their properties are stated about those pieces (prefix, suffix, the spliced text read back), not as character-by-character equality with one long literal.
- RecordTemplates.CoOwnersFetchXmlFillsSlot: the template's line breaks and two-space indentation are as in the source. Whether the platform accepts the `// owner` text left inside the FetchXML is not modelled.
