/**
 * The sanitiser applied to a new track name in the gear menu's "Set track
 * name" dialog: `parseAlphanumeric`, which runs the regular expression
 * `/(?=.*[a-zA-Z].*)([a-zA-Z0-9 ]+)/` once and falls back to "untitled".
 *
 * The regular expression is modelled by its leftmost-match semantics: the
 * first position at which the look-ahead succeeds (a letter occurs later on
 * the same line, `.` not crossing line terminators) and the character there
 * is in the class, then the greedy run of class characters from there.
 */
module TrackNames {
  import opened Wrappers

  predicate IsLetter(c: char) {
    'a' <= c <= 'z' || 'A' <= c <= 'Z'
  }

  /** The character class `[a-zA-Z0-9 ]`. */
  predicate IsNameChar(c: char) {
    IsLetter(c) || '0' <= c <= '9' || c == ' '
  }

  /** The characters that `.` does not match. */
  predicate IsLineTerminator(c: char) {
    c == '\n' || c == '\r' || c == '\U{2028}' || c == '\U{2029}'
  }

  /** The look-ahead `(?=.*[a-zA-Z].*)` at position `i`, scanned left to right. */
  predicate LetterAhead(s: string, i: nat)
    requires i <= |s|
    decreases |s| - i
  {
    i < |s| && !IsLineTerminator(s[i]) && (IsLetter(s[i]) || LetterAhead(s, i + 1))
  }

  /** The end of the greedy run `[a-zA-Z0-9 ]+` starting at `i`. */
  function RunEnd(s: string, i: nat): (e: nat)
    requires i <= |s|
    ensures i <= e <= |s|
    ensures forall k :: i <= k < e ==> IsNameChar(s[k])
    ensures e == |s| || !IsNameChar(s[e])
    decreases |s| - i
  {
    if i < |s| && IsNameChar(s[i]) then RunEnd(s, i + 1) else i
  }

  /** The first position at or after `i` where the expression matches. */
  function FirstMatch(s: string, i: nat): (m: Option<nat>)
    requires i <= |s|
    ensures m.Some? ==> i <= m.value < |s| && IsNameChar(s[m.value])
    decreases |s| - i
  {
    if i == |s| then None
    else if LetterAhead(s, i) && IsNameChar(s[i]) then Some(i)
    else FirstMatch(s, i + 1)
  }

  /** `parseAlphanumeric(value)`: the matched text, or "untitled" when there is no match. */
  function ParseAlphanumeric(s: string): (r: string)
    ensures |r| > 0 && forall k :: 0 <= k < |r| ==> IsNameChar(r[k])
  {
    match FirstMatch(s, 0)
    case None => "untitled"
    case Some(i) => s[i..RunEnd(s, i)]
  }

  /** The look-ahead, stated directly: a letter at some `j >= i` with no line terminator before it. */
  ghost predicate LookaheadHolds(s: string, i: nat) {
    exists j :: i <= j < |s| && IsLetter(s[j]) && forall k :: i <= k < j ==> !IsLineTerminator(s[k])
  }

  /** The regular expression matches at position `i`. */
  ghost predicate MatchesAt(s: string, i: nat) {
    i < |s| && IsNameChar(s[i]) && LookaheadHolds(s, i)
  }

  lemma {:induction false} LetterAheadIsLookahead(s: string, i: nat)
    requires i <= |s|
    ensures LetterAhead(s, i) <==> LookaheadHolds(s, i)
    decreases |s| - i
  {
    if i < |s| {
      LetterAheadIsLookahead(s, i + 1);
      if LookaheadHolds(s, i) && !IsLineTerminator(s[i]) && !IsLetter(s[i]) {
        var j :| i <= j < |s| && IsLetter(s[j]) && forall k :: i <= k < j ==> !IsLineTerminator(s[k]);
        assert j > i;
        assert LookaheadHolds(s, i + 1);
      }
      if LetterAhead(s, i) && !IsLetter(s[i]) {
        var j :| i + 1 <= j < |s| && IsLetter(s[j]) && forall k :: i + 1 <= k < j ==> !IsLineTerminator(s[k]);
        assert LookaheadHolds(s, i);
      }
      if LetterAhead(s, i) && IsLetter(s[i]) {
        assert LookaheadHolds(s, i);
      }
    }
  }

  lemma {:induction false} FirstMatchIsLeftmost(s: string, i: nat)
    requires i <= |s|
    ensures FirstMatch(s, i).Some? ==>
      MatchesAt(s, FirstMatch(s, i).value) && forall k :: i <= k < FirstMatch(s, i).value ==> !MatchesAt(s, k)
    ensures FirstMatch(s, i).None? ==> forall k :: i <= k < |s| ==> !MatchesAt(s, k)
    decreases |s| - i
  {
    if i < |s| {
      LetterAheadIsLookahead(s, i);
      FirstMatchIsLeftmost(s, i + 1);
    }
  }

  /**
   * The result is "untitled" when the expression matches nowhere; otherwise
   * it is the maximal run of `[a-zA-Z0-9 ]` that starts at the leftmost
   * position where the expression matches.
   */
  lemma ParseAlphanumericMatches(s: string)
    ensures (forall i :: 0 <= i < |s| ==> !MatchesAt(s, i)) ==> ParseAlphanumeric(s) == "untitled"
    ensures forall i: nat :: MatchesAt(s, i) && (forall k :: 0 <= k < i ==> !MatchesAt(s, k)) ==>
      var r := ParseAlphanumeric(s);
      && i + |r| <= |s| && s[i..i + |r|] == r
      && (i + |r| == |s| || !IsNameChar(s[i + |r|]))
  {
    FirstMatchIsLeftmost(s, 0);
    forall i: nat | MatchesAt(s, i) && (forall k :: 0 <= k < i ==> !MatchesAt(s, k))
      ensures var r := ParseAlphanumeric(s);
        && i + |r| <= |s| && s[i..i + |r|] == r
        && (i + |r| == |s| || !IsNameChar(s[i + |r|]))
    {
      var m := FirstMatch(s, 0);
      assert m.Some?;
      assert m.value == i;
    }
  }

  /** The run need hold no letter itself: the letter may lie beyond a separator. */
  lemma RunWithoutLetter()
    ensures ParseAlphanumeric("12-ab") == "12"
  {
    assert LetterAhead("12-ab", 0) by {
      assert LetterAhead("12-ab", 3);
    }
    assert RunEnd("12-ab", 0) == 2 by {
      assert RunEnd("12-ab", 2) == 2;
    }
  }

  /** The look-ahead does not cross a line break. */
  lemma LookaheadStopsAtLineBreak()
    ensures ParseAlphanumeric("1\nab") == "ab"
  {
    assert !LetterAhead("1\nab", 0);
    assert FirstMatch("1\nab", 2) == Some(2) by {
      assert LetterAhead("1\nab", 2);
    }
    assert RunEnd("1\nab", 2) == 4;
  }

  /** "untitled" is also what a name that is literally "untitled" gives, so the fallback is not recognisable. */
  lemma FallbackIsAmbiguous()
    ensures ParseAlphanumeric("--") == "untitled"
    ensures ParseAlphanumeric("untitled") == "untitled"
  {
    assert LetterAhead("untitled", 0);
    assert RunEnd("untitled", 0) == 8;
  }
}
