/** The error text of a failed account save (src/pages/APIAccountsPage.tsx):
    the backend message is scanned for `/OVH-Query-ID:\s*([^\s]+)/`, and the
    captured token, when there is one, is appended. */
module QueryId {
  import opened Wrappers

  const TAG := "OVH-Query-ID:"
  const SAVE_FAILED_PREFIX := "保存失败："
  const QUERY_ID_SEPARATOR := " · QueryID: "

  /** JavaScript's `\s`: the ECMAScript white space and line terminators. */
  predicate IsSpace(c: char)
  {
    c == ' ' || c == '\t' || c == '\n' || c == '\U{B}' || c == '\U{C}' || c == '\r' ||
    c == '\U{A0}' || c == '\U{1680}' || ('\U{2000}' <= c <= '\U{200A}') ||
    c == '\U{2028}' || c == '\U{2029}' || c == '\U{202F}' || c == '\U{205F}' ||
    c == '\U{3000}' || c == '\U{FEFF}'
  }

  ghost predicate SpacesBetween(s: string, i: int, j: int)
    requires 0 <= i <= j <= |s|
  {
    forall k :: i <= k < j ==> IsSpace(s[k])
  }

  ghost predicate NonSpacesBetween(s: string, i: int, j: int)
    requires 0 <= i <= j <= |s|
  {
    forall k :: i <= k < j ==> !IsSpace(s[k])
  }

  /** The end of the run of white space that starts at i (`\s*`, greedy). */
  function SkipSpaces(s: string, i: nat): (j: nat)
    requires i <= |s|
    ensures i <= j <= |s| && SpacesBetween(s, i, j)
    ensures j < |s| ==> !IsSpace(s[j])
    decreases |s| - i
  {
    if i < |s| && IsSpace(s[i]) then SkipSpaces(s, i + 1) else i
  }

  /** The end of the run of non-white-space that starts at i (`[^\s]+`, greedy). */
  function RunEnd(s: string, i: nat): (j: nat)
    requires i <= |s|
    ensures i <= j <= |s| && NonSpacesBetween(s, i, j)
    ensures j < |s| ==> IsSpace(s[j])
    decreases |s| - i
  {
    if i < |s| && !IsSpace(s[i]) then RunEnd(s, i + 1) else i
  }

  /** The capture of the pattern when the match is attempted at position p. */
  function MatchAt(s: string, p: nat): Option<string>
    requires p <= |s|
  {
    var t := p + |TAG|;
    if t <= |s| && s[p..t] == TAG then
      var a := SkipSpaces(s, t);
      var b := RunEnd(s, a);
      if a < b then Some(s[a..b]) else None
    else None
  }

  /** The leftmost match at or after position p. */
  function FindFrom(s: string, p: nat): Option<string>
    requires p <= |s|
    decreases |s| - p
  {
    if MatchAt(s, p).Some? then MatchAt(s, p)
    else if p < |s| then FindFrom(s, p + 1)
    else None
  }

  /** `msg.match(/OVH-Query-ID:\s*([^\s]+)/)?.[1]`. */
  function QueryIdOf(msg: string): (q: Option<string>)
    ensures q.None? <==> NoMatchBefore(msg, 0, |msg| + 1)
    ensures q.Some? ==>
      exists p, a, b :: CaptureAt(msg, p, a, b) && NoMatchBefore(msg, 0, p) && q.value == msg[a..b]
  {
    FindFromSpec(msg, 0);
    FindFrom(msg, 0)
  }

  /** `保存失败：<msg> · QueryID: <id>`, or `保存失败：<msg>` without a match. */
  function SaveErrorText(msg: string): (r: string)
    ensures |r| >= |SAVE_FAILED_PREFIX| + |msg|
    ensures r[..|SAVE_FAILED_PREFIX| + |msg|] == SAVE_FAILED_PREFIX + msg
  {
    match QueryIdOf(msg)
    case Some(q) => SAVE_FAILED_PREFIX + msg + QUERY_ID_SEPARATOR + q
    case None => SAVE_FAILED_PREFIX + msg
  }

  // ----- The pattern's meaning, stated on positions of the message -----

  ghost predicate TagAt(s: string, p: int)
  {
    0 <= p && p + |TAG| <= |s| && s[p..p + |TAG|] == TAG
  }

  /** The pattern can match starting at p: the tag, optional white space,
      then at least one non-white-space character. */
  ghost predicate MatchesAt(s: string, p: int)
  {
    TagAt(s, p) &&
    exists j :: p + |TAG| <= j < |s| && SpacesBetween(s, p + |TAG|, j) && !IsSpace(s[j])
  }

  /** Matching at p captures s[a..b]: the tag, white space up to a, and the
      whole run of non-white-space from a to b. */
  ghost predicate CaptureAt(s: string, p: int, a: int, b: int)
  {
    TagAt(s, p) && p + |TAG| <= a < b <= |s| &&
    SpacesBetween(s, p + |TAG|, a) && NonSpacesBetween(s, a, b) &&
    (b < |s| ==> IsSpace(s[b]))
  }

  /** No match starts before p (JavaScript returns the leftmost match). */
  ghost predicate NoMatchBefore(s: string, lo: int, p: int)
  {
    forall p' :: lo <= p' < p ==> !MatchesAt(s, p')
  }

  lemma MatchAtSpec(s: string, p: nat)
    requires p <= |s|
    ensures MatchAt(s, p).Some? <==> MatchesAt(s, p)
    ensures MatchAt(s, p).Some? ==>
      var a := SkipSpaces(s, p + |TAG|);
      var b := RunEnd(s, a);
      CaptureAt(s, p, a, b) && MatchAt(s, p).value == s[a..b]
  {
    if MatchesAt(s, p) {
      var t := p + |TAG|;
      var j :| t <= j < |s| && SpacesBetween(s, t, j) && !IsSpace(s[j]);
      var a := SkipSpaces(s, t);
      assert a == j;
      assert RunEnd(s, a) > a;
    }
    if MatchAt(s, p).Some? {
      var a := SkipSpaces(s, p + |TAG|);
      assert p + |TAG| <= a < |s| && SpacesBetween(s, p + |TAG|, a) && !IsSpace(s[a]);
    }
  }

  lemma {:induction false} FindFromSpec(s: string, i: nat)
    requires i <= |s|
    ensures FindFrom(s, i).None? <==> NoMatchBefore(s, i, |s| + 1)
    ensures FindFrom(s, i).Some? ==>
      exists p, a, b :: i <= p && CaptureAt(s, p, a, b) && NoMatchBefore(s, i, p) &&
                        FindFrom(s, i).value == s[a..b]
    decreases |s| - i
  {
    MatchAtSpec(s, i);
    if MatchAt(s, i).Some? {
      var a := SkipSpaces(s, i + |TAG|);
      var b := RunEnd(s, a);
      assert CaptureAt(s, i, a, b) && NoMatchBefore(s, i, i);
    } else if i < |s| {
      FindFromSpec(s, i + 1);
      if FindFrom(s, i + 1).Some? {
        var p, a, b :| i + 1 <= p && CaptureAt(s, p, a, b) && NoMatchBefore(s, i + 1, p) &&
                       FindFrom(s, i + 1).value == s[a..b];
        assert NoMatchBefore(s, i, p);
      }
    } else {
      assert NoMatchBefore(s, i, |s| + 1) by {
        forall p' | i <= p' < |s| + 1 ensures !MatchesAt(s, p') {
          assert p' == i;
        }
      }
    }
  }

  /** The formatted message, stated against the pattern's meaning: with no
      match anywhere it is the prefix and the message; otherwise the token
      of the leftmost match, the whole non-white-space run after the tag, is
      appended. */
  lemma SaveErrorTextSpec(msg: string)
    ensures NoMatchBefore(msg, 0, |msg| + 1) ==> SaveErrorText(msg) == SAVE_FAILED_PREFIX + msg
    ensures !NoMatchBefore(msg, 0, |msg| + 1) ==>
      exists p, a, b :: CaptureAt(msg, p, a, b) && NoMatchBefore(msg, 0, p) &&
        SaveErrorText(msg) == SAVE_FAILED_PREFIX + msg + QUERY_ID_SEPARATOR + msg[a..b]
  {
    FindFromSpec(msg, 0);
  }

  /** A message carrying the tag, one space and a token. */
  lemma QueryIdExample()
    ensures QueryIdOf("x OVH-Query-ID: Q7") == Some("Q7")
  {
    var s := "x OVH-Query-ID: Q7";
    assert FindFrom(s, 0) == Some("Q7") by {
      assert s[0] != TAG[0] && s[1] != TAG[0];
      assert MatchAt(s, 0) == None;
      assert MatchAt(s, 1) == None;
      assert s[2..2 + |TAG|] == TAG;
      assert SkipSpaces(s, 16) == 16;
      assert SkipSpaces(s, 15) == 16;
      assert RunEnd(s, 18) == 18;
      assert RunEnd(s, 17) == 18;
      assert RunEnd(s, 16) == 18;
      assert s[16..18] == "Q7";
    }
  }
}
