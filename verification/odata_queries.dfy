/**
 The OData query texts the service sends with `queryData`: the solution list,
 the user and team searches, and the solution search. Search text is spliced
 between single quotes exactly as typed; nothing is escaped.

 Each text is built from short fixed pieces so that its shape can be stated
 piece by piece. Each builder has a partner that reads its argument back out
 of the text.
 */
module ODataQueries {
  import opened Options
  import opened Text

  /** `open + "'" + search + "'" + close`: a template literal with the search
      text between single quotes. */
  function Splice(open: string, search: string, close: string): (q: string)
    ensures |q| == |open| + |search| + |close| + 2
  {
    open + "'" + search + "'" + close
  }

  /** The search text between the quotes of a splice. */
  function Unsplice(q: string, open: string, close: string): (r: Option<string>)
    ensures r.Some? ==> q == Splice(open, r.value, close)
  {
    var r := Between(q, open + "'", "'" + close);
    if r.Some? then
      assert q == (open + "'") + r.value + ("'" + close);
      r
    else None
  }

  lemma UnspliceRoundTrip(open: string, search: string, close: string)
    ensures Unsplice(Splice(open, search, close), open, close) == Some(search)
  {
    assert Splice(open, search, close) == (open + "'") + search + ("'" + close);
    BetweenRoundTrip(open + "'", search, "'" + close);
  }

  // ---------------------------------------------------------------- solutions

  const SolutionsHead := "solutions?$filter=" + "(isvisible eq true) and ismanaged eq "
  const SolutionsTail := " &$select=" + "friendlyname,uniquename,ismanaged" + "&$orderby=createdon desc"

  function BoolText(b: bool): string
  {
    if b then "true" else "false"
  }

  /** The filter `getSolutions(managed)` queries with. */
  function SolutionsFilter(managed: bool): (q: string)
    ensures StartsWith(q, SolutionsHead) && EndsWith(q, SolutionsTail)
  {
    var q := SolutionsHead + BoolText(managed) + SolutionsTail;
    assert q[..|SolutionsHead|] == SolutionsHead;
    assert q[|q| - |SolutionsTail|..] == SolutionsTail;
    q
  }

  /** The managed flag a solution-list filter asks for: the literal after
      `ismanaged eq `, when it is `true` or `false`. */
  function ManagedFlagOf(q: string): (r: Option<bool>)
    ensures r.Some? ==> q == SolutionsFilter(r.value)
  {
    var middle := Between(q, SolutionsHead, SolutionsTail);
    if middle == Some("true") then Some(true)
    else if middle == Some("false") then Some(false)
    else None
  }

  /** The filter says `ismanaged eq true` exactly when `managed` is set, and
      `ismanaged eq false` otherwise. */
  lemma SolutionsFilterFollowsFlag(managed: bool)
    ensures ManagedFlagOf(SolutionsFilter(managed)) == Some(managed)
    ensures Between(SolutionsFilter(managed), SolutionsHead, SolutionsTail)
         == Some(if managed then "true" else "false")
  {
    BetweenRoundTrip(SolutionsHead, BoolText(managed), SolutionsTail);
  }

  // ------------------------------------------------------ users and teams

  const TopTen := "&$top=10"
  const UsersOpen := "systemusers?$filter=contains(fullname,"
  const UsersClose := ")&$select=fullname,systemuserid" + TopTen
  const TeamsOpen := "teams?$filter=contains(name,"
  const TeamsClose := ")&$select=name,teamid" + TopTen

  /** The filter `getUsers(search)` queries with. */
  function UsersFilter(search: string): (q: string)
    ensures EndsWith(q, TopTen)
  {
    var q := Splice(UsersOpen, search, UsersClose);
    assert q[|q| - |TopTen|..] == TopTen;
    q
  }

  /** The filter `getTeams(search)` queries with. */
  function TeamsFilter(search: string): (q: string)
    ensures EndsWith(q, TopTen)
  {
    var q := Splice(TeamsOpen, search, TeamsClose);
    assert q[|q| - |TopTen|..] == TopTen;
    q
  }

  /** The user and team filters carry the search text unchanged: reading the
      text between the quotes gives back exactly what was typed. */
  lemma OwnerFiltersCarrySearchVerbatim(search: string)
    ensures Unsplice(UsersFilter(search), UsersOpen, UsersClose) == Some(search)
    ensures Unsplice(TeamsFilter(search), TeamsOpen, TeamsClose) == Some(search)
  {
    UnspliceRoundTrip(UsersOpen, search, UsersClose);
    UnspliceRoundTrip(TeamsOpen, search, TeamsClose);
  }

  // -------------------------------------------------------- solution search

  const TopTwenty := "&$top=20"
  const UnmanagedOnly := "solutions?$filter=ismanaged eq false"
  const SearchOpen := UnmanagedOnly + " and (contains(friendlyname,"
  const SearchMiddle := ") or contains(uniquename,"
  const SearchClose := "))&$select=friendlyname,uniquename" + ",solutionid,ismanaged" + TopTwenty

  /** The filter `searchSolutions(search)` queries with: the search text is
      matched against both the friendly and the unique name. Cut after the
      first closing quote, each half reads back as the search unchanged. */
  function SolutionSearchFilter(search: string): (q: string)
    ensures |q| == |SearchOpen| + |SearchMiddle| + |SearchClose| + 4 + 2 * |search|
    ensures Unsplice(q[..|SearchOpen| + |search| + 2], SearchOpen, "") == Some(search)
    ensures Unsplice(q[|SearchOpen| + |search| + 2..], SearchMiddle, SearchClose) == Some(search)
  {
    var first := Splice(SearchOpen, search, "");
    var second := Splice(SearchMiddle, search, SearchClose);
    assert (first + second)[..|first|] == first;
    assert (first + second)[|first|..] == second;
    UnspliceRoundTrip(SearchOpen, search, "");
    UnspliceRoundTrip(SearchMiddle, search, SearchClose);
    first + second
  }

  /** The solution search asks for unmanaged solutions only and at most
      twenty of them. */
  lemma SolutionSearchScope(search: string)
    ensures StartsWith(SolutionSearchFilter(search), UnmanagedOnly)
    ensures EndsWith(SolutionSearchFilter(search), TopTwenty)
  {
    var first := Splice(SearchOpen, search, "");
    var second := Splice(SearchMiddle, search, SearchClose);
    StartsWithConcat(UnmanagedOnly, " and (contains(friendlyname,");
    StartsWithExtend(SearchOpen, "'", UnmanagedOnly);
    StartsWithExtend(SearchOpen + "'", search, UnmanagedOnly);
    StartsWithExtend(SearchOpen + "'" + search, "'", UnmanagedOnly);
    StartsWithExtend(SearchOpen + "'" + search + "'", "", UnmanagedOnly);
    StartsWithExtend(first, second, UnmanagedOnly);
    EndsWithConcat("))&$select=friendlyname,uniquename" + ",solutionid,ismanaged", TopTwenty);
    EndsWithExtend(SearchMiddle + "'" + search + "'", SearchClose, TopTwenty);
    EndsWithExtend(first, second, TopTwenty);
  }

  /** The search text of a solution-search filter: its length fixes where the
      first copy ends; each half is read back on its own, and the two copies
      must agree. */
  function SolutionSearchTextOf(q: string): (r: Option<string>)
    ensures r.Some? ==> q == SolutionSearchFilter(r.value)
  {
    var fixed := |SearchOpen| + |SearchMiddle| + |SearchClose| + 4;
    if |q| < fixed || (|q| - fixed) % 2 != 0 then None
    else
      var cut := |SearchOpen| + (|q| - fixed) / 2 + 2;
      var first := Unsplice(q[..cut], SearchOpen, "");
      var second := Unsplice(q[cut..], SearchMiddle, SearchClose);
      if first.Some? && second.Some? && first.value == second.value then
        assert q == q[..cut] + q[cut..];
        first
      else None
  }

  /** Both copies of the search text in the solution search are the text as
      typed; reading it back from the filter gives it unchanged. */
  lemma SolutionSearchCarriesSearchVerbatim(search: string)
    ensures SolutionSearchTextOf(SolutionSearchFilter(search)) == Some(search)
  {
  }

  // ------------------------------------------------ reading the literal back

  /** How the server reads an OData string literal, starting just after its
      opening quote: `''` stands for one quote and a lone quote ends the
      literal. The result is the literal's value and the text after it, or
      `None` when the literal is never closed. */
  function LiteralBody(s: string): (r: Option<(string, string)>)
    decreases |s|
  {
    if |s| == 0 then None
    else if s[0] == '\'' then
      if |s| >= 2 && s[1] == '\'' then
        match LiteralBody(s[2..])
        case None => None
        case Some(p) => Some(("'" + p.0, p.1))
      else Some(("", s[1..]))
    else
      match LiteralBody(s[1..])
      case None => None
      case Some(p) => Some(([s[0]] + p.0, p.1))
  }

  /** A quote-free search text is read back as the literal's whole value, as
      long as the text after the closing quote does not start with another quote. */
  lemma {:induction false} QuoteFreeLiteral(search: string, rest: string)
    requires '\'' !in search
    requires |rest| == 0 || rest[0] != '\''
    ensures LiteralBody(search + "'" + rest) == Some((search, rest))
    decreases |search|
  {
    var s := search + "'" + rest;
    if |search| == 0 {
      assert s == "'" + rest;
      assert s[1..] == rest;
    } else {
      assert s[0] == search[0];
      assert s[1..] == search[1..] + "'" + rest;
      QuoteFreeLiteral(search[1..], rest);
      assert [search[0]] + search[1..] == search;
    }
  }

  /** Because nothing is escaped, a quote typed into the search ends the
      literal early: the server sees only the text before it as the value and
      the remainder as query syntax. */
  lemma QuoteEndsLiteralEarly(before: string, after: string, rest: string)
    requires '\'' !in before
    requires |after| > 0 && after[0] != '\''
    ensures LiteralBody(before + "'" + after + rest) == Some((before, after + rest))
  {
    assert before + "'" + after + rest == before + "'" + (after + rest);
    QuoteFreeLiteral(before, after + rest);
  }

  /** What follows the opening quote of a splice. */
  lemma SpliceAfterOpen(open: string, search: string, close: string)
    ensures Splice(open, search, close)[|open| + 1..] == search + "'" + close
  {
    assert Splice(open, search, close) == (open + "'") + (search + "'" + close);
  }

  /** In the user search, a quote-free search text is the literal's value. */
  lemma UsersFilterLiteral(search: string)
    requires '\'' !in search
    ensures LiteralBody(UsersFilter(search)[|UsersOpen| + 1..]) == Some((search, UsersClose))
  {
    assert UsersClose[0] == ')';
    SpliceAfterOpen(UsersOpen, search, UsersClose);
    QuoteFreeLiteral(search, UsersClose);
  }

  /** In the user search, a search text with a quote in it is cut at the quote:
      `O'Brien` searches for `O`. */
  lemma UsersFilterCutAtQuote(before: string, after: string)
    requires '\'' !in before && |after| > 0 && after[0] != '\''
    ensures LiteralBody(UsersFilter(before + "'" + after)[|UsersOpen| + 1..])
         == Some((before, after + "'" + UsersClose))
  {
    SpliceAfterOpen(UsersOpen, before + "'" + after, UsersClose);
    assert (before + "'" + after) + "'" + UsersClose == before + "'" + after + ("'" + UsersClose);
    assert after + "'" + UsersClose == after + ("'" + UsersClose);
    QuoteEndsLiteralEarly(before, after, "'" + UsersClose);
  }
}
