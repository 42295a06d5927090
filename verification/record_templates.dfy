/**
 The two FetchXML templates that are filled in with one flow's id:
 `getCoOwners` asks for the principals holding the owner's access rights on
 the flow, and `getFlowSolutions` asks for the solutions the flow is a
 component of. Each template has a single `{RECORD-ID}` slot. The slot is
 filled with `String.prototype.replace`, which replaces the first occurrence
 of the pattern.

 The templates are multi-line template literals; here every line ends in
 `\n` and long lines are cut into pieces, so that the verifier reasons about
 short constants.
 */
module RecordTemplates {
  import opened Options
  import opened JsValues
  import opened Text

  const Placeholder := "{RECORD-ID}"

  /** Text that contains no `{` cannot hold the placeholder. */
  predicate BraceFree(s: string)
  {
    '{' !in s
  }

  lemma BraceFreeHasNoPlaceholder(s: string)
    requires BraceFree(s)
    ensures !Contains(s, Placeholder)
  {
    forall i: nat | i <= |s|
      ensures !OccursAt(s, Placeholder, i)
    {
      if i + |Placeholder| <= |s| {
        assert s[i..i + |Placeholder|][0] == s[i];
      }
    }
  }

  /** `(before + "{RECORD-ID}" + after).replace("{RECORD-ID}", id)`. */
  function Fill(before: string, after: string, id: Value): string
  {
    Replace(before + Placeholder + after, Placeholder, ToText(id))
  }

  /** Filling a template whose fixed text has no `{`:
      - the slot is the template's only occurrence of the placeholder;
      - the result is the template with the slot replaced by the replacement
        `replace` builds from `String(id)`;
      - an id without `$` is written into the slot as it is;
      - an id without `$` or `{` leaves no placeholder behind. */
  lemma FillSlot(before: string, after: string, id: Value)
    requires BraceFree(before) && BraceFree(after)
    ensures forall j: nat :: OccursAt(before + Placeholder + after, Placeholder, j) <==> j == |before|
    ensures Fill(before, after, id) == before + Expand(ToText(id), Placeholder, before, after) + after
    ensures '$' !in ToText(id) ==> Fill(before, after, id) == before + ToText(id) + after
    ensures '$' !in ToText(id) && BraceFree(ToText(id)) ==> !Contains(Fill(before, after, id), Placeholder)
    ensures EndsWith(Fill(before, after, id), after)
  {
    assert Placeholder[0] == '{' && !('{' in Placeholder[1..]);
    forall j: nat
      ensures OccursAt(before + Placeholder + after, Placeholder, j) <==> j == |before|
    {
      SingleOccurrence(before, Placeholder, after, j);
    }
    ReplaceAtSlot(before, Placeholder, after, ToText(id));
    var filled := Fill(before, after, id);
    assert filled[|filled| - |after|..] == after;
    if '$' !in ToText(id) {
      ExpandWithoutDollar(ToText(id), Placeholder, before, after);
      if BraceFree(ToText(id)) {
        assert BraceFree(before + ToText(id) + after);
        BraceFreeHasNoPlaceholder(filled);
      }
    }
  }

  /** A piece of the text after the slot survives the filling. */
  lemma FillKeepsTailPiece(before: string, lead: string, piece: string, rest: string, id: Value)
    requires BraceFree(before)
    ensures Contains(Fill(before, lead + piece + rest, id), piece)
  {
    var after := lead + piece + rest;
    ReplaceAtSlot(before, Placeholder, after, ToText(id));
    var m := Expand(ToText(id), Placeholder, before, after);
    assert before + m + after == (before + m + lead) + piece + rest;
    OccursAtPrefixEnd(before + m + lead, piece, rest);
  }

  /** A piece of the text before the slot survives the filling. */
  lemma FillKeepsHeadPiece(lead: string, piece: string, rest: string, after: string, id: Value)
    requires BraceFree(lead + piece + rest)
    ensures Contains(Fill(lead + piece + rest, after, id), piece)
  {
    var before := lead + piece + rest;
    ReplaceAtSlot(before, Placeholder, after, ToText(id));
    var m := Expand(ToText(id), Placeholder, before, after);
    assert before + m + after == lead + piece + (rest + m + after);
    OccursAtPrefixEnd(lead, piece, rest + m + after);
  }

  /** One `<attribute name="…" />` line of a template. */
  function Attribute(name: string): string
  {
    "    <attribute name=\"" + name + "\" />\n"
  }

  lemma AttributeBraceFree(name: string)
    requires BraceFree(name)
    ensures BraceFree(Attribute(name))
  {
    assert BraceFree("    <attribute name=\"") && BraceFree("\" />\n");
  }

  // ------------------------------------------------------------- co-owners

  /** The access-rights mask the co-owner query filters on. */
  const CoOwnerMask := 852023
  const MaskText := "852023"

  /** The mask in the template is the decimal text of `CoOwnerMask`. */
  lemma MaskTextIsDecimal()
    ensures MaskText == DecimalText(CoOwnerMask)
  {
    assert Digits(8) == "8";
    assert Digits(85) == Digits(8) + "5";
    assert Digits(852) == Digits(85) + "2";
    assert Digits(8520) == Digits(852) + "0";
    assert Digits(85202) == Digits(8520) + "2";
    assert Digits(852023) == Digits(85202) + "3";
  }

  /** Reading the template's mask as a number gives `CoOwnerMask`. */
  lemma MaskTextDenotesMask()
    ensures NumericValue(MaskText) == Some(CoOwnerMask)
  {
    MaskTextIsDecimal();
    DecimalTextRoundTrip(CoOwnerMask);
  }

  // The text before the slot, in groups of lines.
  const CoOwnersEntityOpen := "<fetch>\n" + "  <entity" + " name=\"principalobjectaccess\">\n"
  const CoOwnersAttributes := Attribute("objectid") + Attribute("accessrightsmask") + Attribute("principalid")
  const UserLinkOpen := "    <link-entity name=\"systemuser\"" + " from=\"systemuserid\" to=\"principalid\""
    + " link-type=\"outer\" alias=\"u\">\n"
  const UserLinkBody := "      <attribute name=\"fullname\"" + " alias=\"user\" />\n" + "    </link-entity>\n"
  const TeamLinkOpen := "    <link-entity name=\"team\"" + " from=\"teamid\" to=\"principalid\""
    + " link-type=\"outer\" alias=\"t\">\n"
  const TeamLinkBody := "      <attribute name=\"name\"" + " alias=\"team\" />\n" + "    </link-entity>\n"
  const ObjectCondition := "    <filter>\n" + "      <condition attribute=\"objectid\"" + " operator=\"eq\" value=\""

  /** The condition on the access-rights mask, with the comment the template
      carries after it. */
  const MaskCondition := "      <condition" + " attribute=\"accessrightsmask\"" + " operator=\"eq\" value=\""
    + MaskText + "\" /> // owner\n"

  const SlotClose := "\" />\n"
  const CoOwnersEnd := "    </filter>\n" + "  </entity>\n" + "</fetch>"

  const CoOwnersBefore := CoOwnersEntityOpen + CoOwnersAttributes + UserLinkOpen + UserLinkBody
    + TeamLinkOpen + TeamLinkBody + ObjectCondition
  const CoOwnersAfter := SlotClose + MaskCondition + CoOwnersEnd
  const CoOwnersTemplate := CoOwnersBefore + Placeholder + CoOwnersAfter

  /** The document `getCoOwners(flow)` sends. */
  function CoOwnersFetchXml(flowId: Value): string
  {
    Replace(CoOwnersTemplate, Placeholder, ToText(flowId))
  }

  lemma CoOwnersEntityOpenBraceFree()
    ensures BraceFree(CoOwnersEntityOpen)
  {
  }

  lemma CoOwnersAttributesBraceFree()
    ensures BraceFree(CoOwnersAttributes)
  {
    AttributeBraceFree("objectid");
    AttributeBraceFree("accessrightsmask");
    AttributeBraceFree("principalid");
  }

  lemma UserLinkOpenBraceFree()
    ensures BraceFree(UserLinkOpen)
  {
  }

  lemma UserLinkBodyBraceFree()
    ensures BraceFree(UserLinkBody)
  {
  }

  lemma TeamLinkOpenBraceFree()
    ensures BraceFree(TeamLinkOpen)
  {
  }

  lemma TeamLinkBodyBraceFree()
    ensures BraceFree(TeamLinkBody)
  {
  }

  lemma ObjectConditionBraceFree()
    ensures BraceFree(ObjectCondition)
  {
  }

  lemma MaskConditionBraceFree()
    ensures BraceFree(MaskCondition)
  {
  }

  lemma SlotCloseBraceFree()
    ensures BraceFree(SlotClose)
  {
  }

  lemma CoOwnersEndBraceFree()
    ensures BraceFree(CoOwnersEnd)
  {
  }

  lemma CoOwnersFixedTextBraceFree()
    ensures BraceFree(CoOwnersBefore) && BraceFree(CoOwnersAfter)
  {
    CoOwnersEntityOpenBraceFree();
    CoOwnersAttributesBraceFree();
    UserLinkOpenBraceFree();
    UserLinkBodyBraceFree();
    TeamLinkOpenBraceFree();
    TeamLinkBodyBraceFree();
    ObjectConditionBraceFree();
    MaskConditionBraceFree();
    SlotCloseBraceFree();
    CoOwnersEndBraceFree();
  }

  /** The co-owner document puts the flow's id into the template's single
      `{RECORD-ID}` slot. */
  lemma CoOwnersFetchXmlFillsSlot(flowId: Value)
    ensures forall j: nat :: OccursAt(CoOwnersTemplate, Placeholder, j) <==> j == |CoOwnersBefore|
    ensures CoOwnersFetchXml(flowId)
         == CoOwnersBefore + Expand(ToText(flowId), Placeholder, CoOwnersBefore, CoOwnersAfter) + CoOwnersAfter
    ensures '$' !in ToText(flowId) ==> CoOwnersFetchXml(flowId) == CoOwnersBefore + ToText(flowId) + CoOwnersAfter
    ensures '$' !in ToText(flowId) && BraceFree(ToText(flowId)) ==> !Contains(CoOwnersFetchXml(flowId), Placeholder)
  {
    CoOwnersFixedTextBraceFree();
    FillSlot(CoOwnersBefore, CoOwnersAfter, flowId);
  }

  /** Whatever the id, the co-owner document keeps only principals holding
      exactly the owner's access mask. */
  lemma CoOwnersFetchXmlFiltersOnMask(flowId: Value)
    ensures Contains(CoOwnersFetchXml(flowId), MaskCondition)
  {
    CoOwnersFixedTextBraceFree();
    FillKeepsTailPiece(CoOwnersBefore, SlotClose, MaskCondition, CoOwnersEnd, flowId);
  }

  /** A co-owner document names the flow it was made for: documents for ids
      whose text has no `$` are equal only when the ids' texts are. */
  lemma CoOwnersFetchXmlNamesFlow(a: Value, b: Value)
    requires '$' !in ToText(a) && '$' !in ToText(b)
    ensures CoOwnersFetchXml(a) == CoOwnersFetchXml(b) ==> ToText(a) == ToText(b)
    ensures Between(CoOwnersFetchXml(a), CoOwnersBefore, CoOwnersAfter) == Some(ToText(a))
  {
    CoOwnersFetchXmlFillsSlot(a);
    CoOwnersFetchXmlFillsSlot(b);
    BetweenRoundTrip(CoOwnersBefore, ToText(a), CoOwnersAfter);
    BetweenRoundTrip(CoOwnersBefore, ToText(b), CoOwnersAfter);
  }

  // -------------------------------------------------------- flow solutions

  const SolutionEntityOpen := "<fetch>\n" + "  <entity name=\"solution\">\n"
  const SolutionAttributes := Attribute("friendlyname") + Attribute("uniquename")
    + Attribute("solutionid") + Attribute("ismanaged")

  /** The condition that keeps the default solution out. */
  const DefaultExclusion := "      <condition attribute=\"uniquename\"" + " operator=\"ne\" value=\"Default\" />\n"

  const ComponentLinkOpen := "    <link-entity name=\"solutioncomponent\"" + " from=\"solutionid\" to=\"solutionid\""
    + " alias=\"sc\">\n"
  const ComponentCondition := "      <filter>\n" + "        <condition attribute=\"objectid\"" + " operator=\"eq\" value=\""
  const FlowSolutionsEnd := "      </filter> \n" + "    </link-entity>\n" + "  </entity>\n" + "</fetch>"

  const FlowSolutionsLead := SolutionEntityOpen + SolutionAttributes + "    <filter>\n"
  const FlowSolutionsRest := "    </filter>\n" + ComponentLinkOpen + ComponentCondition
  const FlowSolutionsBefore := FlowSolutionsLead + DefaultExclusion + FlowSolutionsRest
  const FlowSolutionsAfter := SlotClose + FlowSolutionsEnd
  const FlowSolutionsTemplate := FlowSolutionsBefore + Placeholder + FlowSolutionsAfter

  /** The document `getFlowSolutions(flow)` sends. */
  function FlowSolutionsFetchXml(flowId: Value): string
  {
    Replace(FlowSolutionsTemplate, Placeholder, ToText(flowId))
  }

  lemma SolutionEntityOpenBraceFree()
    ensures BraceFree(SolutionEntityOpen)
  {
  }

  lemma SolutionAttributesBraceFree()
    ensures BraceFree(SolutionAttributes)
  {
    AttributeBraceFree("friendlyname");
    AttributeBraceFree("uniquename");
    AttributeBraceFree("solutionid");
    AttributeBraceFree("ismanaged");
  }

  lemma DefaultExclusionBraceFree()
    ensures BraceFree(DefaultExclusion)
  {
  }

  lemma ComponentLinkOpenBraceFree()
    ensures BraceFree(ComponentLinkOpen)
  {
  }

  lemma ComponentConditionBraceFree()
    ensures BraceFree(ComponentCondition)
  {
  }

  lemma FlowSolutionsEndBraceFree()
    ensures BraceFree(FlowSolutionsEnd)
  {
  }

  lemma FlowSolutionsFixedTextBraceFree()
    ensures BraceFree(FlowSolutionsBefore) && BraceFree(FlowSolutionsAfter)
  {
    SolutionEntityOpenBraceFree();
    SolutionAttributesBraceFree();
    DefaultExclusionBraceFree();
    ComponentLinkOpenBraceFree();
    ComponentConditionBraceFree();
    FlowSolutionsEndBraceFree();
    SlotCloseBraceFree();
  }

  /** The flow-solutions document puts the flow's id into the template's
      single `{RECORD-ID}` slot. */
  lemma FlowSolutionsFetchXmlFillsSlot(flowId: Value)
    ensures forall j: nat :: OccursAt(FlowSolutionsTemplate, Placeholder, j) <==> j == |FlowSolutionsBefore|
    ensures FlowSolutionsFetchXml(flowId)
         == FlowSolutionsBefore + Expand(ToText(flowId), Placeholder, FlowSolutionsBefore, FlowSolutionsAfter)
            + FlowSolutionsAfter
    ensures '$' !in ToText(flowId)
            ==> FlowSolutionsFetchXml(flowId) == FlowSolutionsBefore + ToText(flowId) + FlowSolutionsAfter
    ensures '$' !in ToText(flowId) && BraceFree(ToText(flowId))
            ==> !Contains(FlowSolutionsFetchXml(flowId), Placeholder)
  {
    FlowSolutionsFixedTextBraceFree();
    FillSlot(FlowSolutionsBefore, FlowSolutionsAfter, flowId);
  }

  /** Whatever the id, the flow-solutions document leaves the default
      solution out. */
  lemma FlowSolutionsFetchXmlExcludesDefault(flowId: Value)
    ensures Contains(FlowSolutionsFetchXml(flowId), DefaultExclusion)
  {
    FlowSolutionsFixedTextBraceFree();
    FillKeepsHeadPiece(FlowSolutionsLead, DefaultExclusion, FlowSolutionsRest, FlowSolutionsAfter, flowId);
  }
}
