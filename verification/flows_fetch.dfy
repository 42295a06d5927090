/**
 The FetchXML document `getFlowsBySolution` sends: an array of lines joined
 with `""`, to which a join on the solution's components is added when a
 solution is given.
 */
module FlowsFetch {
  import opened Options
  import opened JsValues
  import opened Text
  import opened Entities

  const FetchOpen := "<fetch top='50'>"
  const EntityOpen := "  <entity name='workflow'>"
  const FilterOpen := "    <filter>"
  const TypeCondition := "      <condition attribute='type' operator='eq' value='1'/>"
  const CategoryCondition := "      <condition attribute='category' operator='eq' value='5'/>"
  const FilterClose := "    </filter>"
  const LinkOpen := "    <link-entity name='solutioncomponent' from='objectid' to='workflowid' alias='sc'>"
  const LinkFilterOpen := "      <filter>"
  const SolutionConditionOpen := "        <condition attribute='solutionid' operator='eq' value='"
  const SolutionConditionClose := "'/>"
  const LinkFilterClose := "      </filter>"
  const LinkClose := "    </link-entity>"
  const EntityClose := "  </entity>"
  const FetchClose := "</fetch>"

  function AttributeLine(name: string): string
  {
    "    <attribute name='" + name + "'/>"
  }

  /** The lines every flow query starts with. */
  const HeadLines: seq<string> := [
    FetchOpen, EntityOpen,
    AttributeLine("category"), AttributeLine("name"), AttributeLine("type"),
    AttributeLine("ownerid"), AttributeLine("description"), AttributeLine("createdby"),
    AttributeLine("statecode"), AttributeLine("workflowid"),
    FilterOpen, TypeCondition, CategoryCondition, FilterClose
  ]

  /** The join on solution components, with the solution's id; `join` renders
      an `undefined` or `null` id as the empty string. */
  function LinkLines(solutionId: Value): seq<string>
  {
    [LinkOpen, LinkFilterOpen, SolutionConditionOpen, JoinText(solutionId),
     SolutionConditionClose, LinkFilterClose, LinkClose]
  }

  const CloseLines: seq<string> := [EntityClose, FetchClose]

  /** The document, built as the program builds it: the head joined, then the
      join on solution components and the closing tags when a solution is
      given, the closing tags alone otherwise. */
  function FlowsFetchXml(solution: Option<Solution>): string
  {
    var head := Join(HeadLines);
    if solution.Some? then head + Join(LinkLines(solution.value.id) + CloseLines)
    else head + Join(CloseLines)
  }

  /** The lines of the document, in order. */
  function FlowsFetchLines(solution: Option<Solution>): (lines: seq<string>)
    ensures |lines| >= |HeadLines| + |CloseLines|
    ensures lines[..|HeadLines|] == HeadLines
    ensures lines[|lines| - 2..] == CloseLines
  {
    var lines := HeadLines + (if solution.Some? then LinkLines(solution.value.id) else []) + CloseLines;
    assert lines[..|HeadLines|] == HeadLines;
    assert lines[|lines| - 2..] == CloseLines;
    lines
  }

  /** The document is exactly its lines joined together. */
  lemma FlowsFetchXmlIsLines(solution: Option<Solution>)
    ensures FlowsFetchXml(solution) == Join(FlowsFetchLines(solution))
  {
    if solution.Some? {
      var link := LinkLines(solution.value.id);
      assert FlowsFetchLines(solution) == HeadLines + (link + CloseLines);
      JoinConcat(HeadLines, link + CloseLines);
    } else {
      assert FlowsFetchLines(solution) == HeadLines + CloseLines;
      JoinConcat(HeadLines, CloseLines);
    }
  }

  /** Every flow query asks for at most fifty records and for cloud flows
      only: `type eq 1` and `category eq 5`. */
  lemma FlowsFetchAlwaysRestricts(solution: Option<Solution>)
    ensures StartsWith(FlowsFetchXml(solution), FetchOpen)
    ensures Contains(FlowsFetchXml(solution), TypeCondition)
    ensures Contains(FlowsFetchXml(solution), CategoryCondition)
  {
    var lines := FlowsFetchLines(solution);
    FlowsFetchXmlIsLines(solution);
    assert lines[0] == FetchOpen && lines[11] == TypeCondition && lines[12] == CategoryCondition;
    PieceOccursInJoin(lines, 0);
    assert lines[..0] == [];
    PieceOccursInJoin(lines, 11);
    PieceOccursInJoin(lines, 12);
  }

  /** The join on solution components is one of the document's lines exactly
      when a solution is given. */
  lemma FlowsFetchLinkIffSolution(solution: Option<Solution>)
    ensures LinkOpen in FlowsFetchLines(solution) <==> solution.Some?
  {
    var lines := FlowsFetchLines(solution);
    if solution.Some? {
      assert lines[|HeadLines|] == LinkOpen;
    } else {
      assert lines == HeadLines + CloseLines;
      assert forall k :: 0 <= k < |lines| ==> |lines[k]| != |LinkOpen|;
    }
  }

  /** The text that comes before the solution id when a solution is given. */
  const SolutionIdPrefix := Join(HeadLines + [LinkOpen, LinkFilterOpen, SolutionConditionOpen])

  /** The text that follows the solution id. */
  const SolutionIdSuffix := Join([SolutionConditionClose, LinkFilterClose, LinkClose] + CloseLines)

  /** With a solution, the join condition compares `solutionid` with the
      solution's id, written into the document as it is. */
  lemma FlowsFetchLinksOnSolutionId(solution: Solution)
    ensures FlowsFetchXml(Some(solution)) == SolutionIdPrefix + JoinText(solution.id) + SolutionIdSuffix
    ensures Between(FlowsFetchXml(Some(solution)), SolutionIdPrefix, SolutionIdSuffix)
         == Some(JoinText(solution.id))
  {
    var lines := FlowsFetchLines(Some(solution));
    var k := |HeadLines| + 3;
    FlowsFetchXmlIsLines(Some(solution));
    JoinSplit(lines, k);
    assert lines[..k] == HeadLines + [LinkOpen, LinkFilterOpen, SolutionConditionOpen];
    assert lines[k] == JoinText(solution.id);
    assert lines[k + 1..] == [SolutionConditionClose, LinkFilterClose, LinkClose] + CloseLines;
    BetweenRoundTrip(SolutionIdPrefix, JoinText(solution.id), SolutionIdSuffix);
  }

  /** Documents for different solution ids differ, and a document with a
      solution is never the document without one. */
  lemma FlowsFetchDistinguishesSolutions(a: Solution, b: Solution)
    ensures FlowsFetchXml(Some(a)) == FlowsFetchXml(Some(b)) ==> JoinText(a.id) == JoinText(b.id)
    ensures FlowsFetchXml(Some(a)) != FlowsFetchXml(None)
  {
    FlowsFetchLinksOnSolutionId(a);
    FlowsFetchLinksOnSolutionId(b);
    JoinConcat(LinkLines(a.id), CloseLines);
    PieceOccursInJoin(LinkLines(a.id), 0);
    assert |FlowsFetchXml(Some(a))| > |FlowsFetchXml(None)|;
  }
}
