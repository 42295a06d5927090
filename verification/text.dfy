/**
 The string operations the service uses to build query text: searching with
 `String.prototype.indexOf`, `String.prototype.replace` with a string pattern,
 and `Array.prototype.join("")`.
 */
module Text {
  import opened Options

  predicate OccursAt(s: string, pat: string, i: nat)
  {
    i + |pat| <= |s| && s[i..i + |pat|] == pat
  }

  predicate Contains(s: string, pat: string)
  {
    exists i: nat | i <= |s| :: OccursAt(s, pat, i)
  }

  /** The first position at or after `from` where `pat` occurs in `s`. */
  function IndexOf(s: string, pat: string, from: nat): (r: Option<nat>)
    ensures r.Some? ==> from <= r.value && OccursAt(s, pat, r.value)
    ensures r.Some? ==> forall j: nat :: from <= j < r.value ==> !OccursAt(s, pat, j)
    ensures r.None? ==> forall j: nat :: from <= j ==> !OccursAt(s, pat, j)
    decreases |s| - from
  {
    if from + |pat| > |s| then None
    else if s[from..from + |pat|] == pat then Some(from)
    else IndexOf(s, pat, from + 1)
  }

  /** The replacement text `String.prototype.replace` inserts for a match when
      the pattern is a string (so there are no capture groups): `$$` is one `$`,
      `$&` the matched text, `` $` `` the text before the match, `$'` the text
      after it; every other character, including any other `$`, is kept. */
  function Expand(repl: string, matched: string, before: string, after: string): string
    decreases |repl|
  {
    if |repl| == 0 then ""
    else if repl[0] == '$' && |repl| >= 2 && repl[1] == '$' then
      "$" + Expand(repl[2..], matched, before, after)
    else if repl[0] == '$' && |repl| >= 2 && repl[1] == '&' then
      matched + Expand(repl[2..], matched, before, after)
    else if repl[0] == '$' && |repl| >= 2 && repl[1] == '`' then
      before + Expand(repl[2..], matched, before, after)
    else if repl[0] == '$' && |repl| >= 2 && repl[1] == '\'' then
      after + Expand(repl[2..], matched, before, after)
    else
      [repl[0]] + Expand(repl[1..], matched, before, after)
  }

  /** A replacement without `$` is inserted verbatim. */
  lemma {:induction false} ExpandWithoutDollar(repl: string, matched: string, before: string, after: string)
    requires '$' !in repl
    ensures Expand(repl, matched, before, after) == repl
    decreases |repl|
  {
    if |repl| > 0 {
      assert repl[0] != '$';
      assert repl == [repl[0]] + repl[1..];
      ExpandWithoutDollar(repl[1..], matched, before, after);
    }
  }

  /** `s.replace(pat, repl)` with a string pattern: only the first occurrence
      is replaced. */
  function Replace(s: string, pat: string, repl: string): string
  {
    match IndexOf(s, pat, 0)
    case None => s
    case Some(i) => s[..i] + Expand(repl, pat, s[..i], s[i + |pat|..]) + s[i + |pat|..]
  }

  lemma OccursAtPrefixEnd(before: string, pat: string, after: string)
    ensures OccursAt(before + pat + after, pat, |before|)
  {
    var s := before + pat + after;
    assert s[|before|..|before| + |pat|] == pat;
  }

  /** Where the placeholder's first character appears nowhere but at the
      placeholder itself, no match starts anywhere else. */
  lemma NoOccurrenceElsewhere(before: string, pat: string, after: string, j: nat)
    requires |pat| > 0 && j != |before|
    requires j < |before| ==> pat[0] !in before
    requires |before| < j < |before| + |pat| ==> pat[0] !in pat[1..]
    requires |before| + |pat| <= j ==> pat[0] !in after
    ensures !OccursAt(before + pat + after, pat, j)
  {
    var s := before + pat + after;
    if j + |pat| <= |s| {
      assert s[j..j + |pat|][0] == s[j];
      if j < |before| {
        assert s[j] == before[j];
      } else if j < |before| + |pat| {
        assert s[j] == pat[1..][j - |before| - 1];
      } else {
        assert s[j] == after[j - |before| - |pat|];
      }
    }
  }

  /** Replacing into a template whose text before the placeholder cannot start
      a match puts the expanded replacement exactly where the placeholder was. */
  lemma {:induction false} ReplaceAtSlot(before: string, pat: string, after: string, repl: string)
    requires |pat| > 0 && pat[0] !in before
    ensures Replace(before + pat + after, pat, repl)
         == before + Expand(repl, pat, before, after) + after
  {
    var s := before + pat + after;
    OccursAtPrefixEnd(before, pat, after);
    forall j: nat | j < |before|
      ensures !OccursAt(s, pat, j)
    {
      NoOccurrenceElsewhere(before, pat, after, j);
    }
    assert IndexOf(s, pat, 0) == Some(|before|);
    assert s[..|before|] == before;
    assert s[|before| + |pat|..] == after;
  }

  /** When neither the surrounding text nor the rest of the placeholder
      contains the placeholder's first character, the placeholder occurs
      exactly once. */
  lemma {:induction false} SingleOccurrence(before: string, pat: string, after: string, j: nat)
    requires |pat| > 0 && pat[0] !in before && pat[0] !in after && pat[0] !in pat[1..]
    ensures OccursAt(before + pat + after, pat, j) <==> j == |before|
  {
    OccursAtPrefixEnd(before, pat, after);
    if j != |before| {
      NoOccurrenceElsewhere(before, pat, after, j);
    }
  }

  /** `pieces.join("")`. */
  function Join(pieces: seq<string>): string
    decreases |pieces|
  {
    if |pieces| == 0 then "" else pieces[0] + Join(pieces[1..])
  }

  lemma {:induction false} JoinConcat(a: seq<string>, b: seq<string>)
    ensures Join(a + b) == Join(a) + Join(b)
    decreases |a|
  {
    if |a| == 0 {
      assert a + b == b;
    } else {
      assert (a + b)[1..] == a[1..] + b;
      JoinConcat(a[1..], b);
    }
  }

  /** The text of the pieces before index `k`, then piece `k`, then the rest. */
  lemma {:induction false} JoinSplit(pieces: seq<string>, k: nat)
    requires k < |pieces|
    ensures Join(pieces) == Join(pieces[..k]) + pieces[k] + Join(pieces[k + 1..])
  {
    assert pieces == pieces[..k] + ([pieces[k]] + pieces[k + 1..]);
    JoinConcat(pieces[..k], [pieces[k]] + pieces[k + 1..]);
    assert ([pieces[k]] + pieces[k + 1..])[1..] == pieces[k + 1..];
  }

  /** Every piece of a joined array appears in its text. */
  lemma PieceOccursInJoin(pieces: seq<string>, k: nat)
    requires k < |pieces|
    ensures OccursAt(Join(pieces), pieces[k], |Join(pieces[..k])|)
  {
    JoinSplit(pieces, k);
    OccursAtPrefixEnd(Join(pieces[..k]), pieces[k], Join(pieces[k + 1..]));
  }

  /** The text between a known head and a known tail, if `q` has both. */
  function Between(q: string, head: string, tail: string): (r: Option<string>)
    ensures r.Some? ==> q == head + r.value + tail
  {
    if |head| + |tail| <= |q| && q[..|head|] == head && q[|q| - |tail|..] == tail then
      var middle := q[|head|..|q| - |tail|];
      assert q == q[..|head|] + middle + q[|q| - |tail|..];
      Some(middle)
    else None
  }

  lemma BetweenRoundTrip(head: string, middle: string, tail: string)
    ensures Between(head + middle + tail, head, tail) == Some(middle)
  {
    var q := head + middle + tail;
    assert q[..|head|] == head;
    assert q[|q| - |tail|..] == tail;
    assert q[|head|..|q| - |tail|] == middle;
  }

  predicate EndsWith(s: string, suffix: string)
  {
    |suffix| <= |s| && s[|s| - |suffix|..] == suffix
  }

  predicate StartsWith(s: string, prefix: string)
  {
    |prefix| <= |s| && s[..|prefix|] == prefix
  }

  lemma StartsWithConcat(a: string, b: string)
    ensures StartsWith(a + b, a)
  {
    assert (a + b)[..|a|] == a;
  }

  /** A prefix of a text is a prefix of anything the text is extended by. */
  lemma StartsWithExtend(x: string, y: string, prefix: string)
    requires StartsWith(x, prefix)
    ensures StartsWith(x + y, prefix)
  {
    assert (x + y)[..|prefix|] == x[..|prefix|];
  }

  lemma EndsWithConcat(a: string, b: string)
    ensures EndsWith(a + b, b)
  {
    assert (a + b)[|a|..] == b;
  }

  /** A suffix of a text is a suffix of anything the text is appended to. */
  lemma EndsWithExtend(x: string, y: string, suffix: string)
    requires EndsWith(y, suffix)
    ensures EndsWith(x + y, suffix)
  {
    assert (x + y)[|x + y| - |suffix|..] == y[|y| - |suffix|..];
  }
}
