/**
  The string operations the voice service applies to conversation text:
  Python's `str.strip()`, `str.replace("Assistant:", "")`, `"\n".join(...)`
  and the decimal rendering `str(int)` used to build identifiers.
 */
module Text {

  /** Python's `str.isspace()` for one character (the characters `str.strip()` removes). */
  predicate IsSpace(c: char) {
    || ('\t' <= c <= '\r')
    || ('\U{1C}' <= c <= ' ')
    || c == '\U{85}' || c == '\U{A0}' || c == '\U{1680}'
    || ('\U{2000}' <= c <= '\U{200A}')
    || c == '\U{2028}' || c == '\U{2029}' || c == '\U{202F}' || c == '\U{205F}'
    || c == '\U{3000}'
  }

  predicate AllSpace(s: string) {
    forall i :: 0 <= i < |s| ==> IsSpace(s[i])
  }

  /** The first index at or after `i` that does not hold whitespace (`|s|` when there is none). */
  function SkipSpaces(s: string, i: nat): (j: nat)
    requires i <= |s|
    ensures i <= j <= |s|
    ensures forall k :: i <= k < j ==> IsSpace(s[k])
    ensures j < |s| ==> !IsSpace(s[j])
    decreases |s| - i
  {
    if i < |s| && IsSpace(s[i]) then SkipSpaces(s, i + 1) else i
  }

  /** The index just past the last non-whitespace character of `s[lo..j]` (`lo` when there is none). */
  function SkipSpacesBack(s: string, lo: nat, j: nat): (i: nat)
    requires lo <= j <= |s|
    ensures lo <= i <= j
    ensures forall k :: i <= k < j ==> IsSpace(s[k])
    ensures i > lo ==> !IsSpace(s[i - 1])
    decreases j - lo
  {
    if lo < j && IsSpace(s[j - 1]) then SkipSpacesBack(s, lo, j - 1) else j
  }

  /** `r` is the slice of `s` that starts at `i`, with only whitespace on either side of it. */
  predicate Flanked(s: string, r: string, i: int) {
    && 0 <= i <= i + |r| <= |s| && r == s[i..i + |r|]
    && (forall k :: 0 <= k < i ==> IsSpace(s[k]))
    && (forall k :: i + |r| <= k < |s| ==> IsSpace(s[k]))
  }

  /**
    Python's `str.strip()`: the result is the part of `s` between a run of
    leading and a run of trailing whitespace, and it neither starts nor ends
    with whitespace; it is empty exactly when `s` is all whitespace.
   */
  function Strip(s: string): (r: string)
    ensures exists i :: Flanked(s, r, i)
    ensures r != [] ==> !IsSpace(r[0]) && !IsSpace(r[|r| - 1])
    ensures r == [] <==> AllSpace(s)
  {
    var i := SkipSpaces(s, 0);
    var j := SkipSpacesBack(s, i, |s|);
    assert Flanked(s, s[i..j], i);
    s[i..j]
  }

  /** Text that already has no surrounding whitespace is left as it is. */
  lemma {:induction false} StripKeepsTrimmed(s: string)
    requires s == [] || (!IsSpace(s[0]) && !IsSpace(s[|s| - 1]))
    ensures Strip(s) == s
  {
    assert s[0..|s|] == s;
  }

  /** Stripping twice is stripping once. */
  lemma {:induction false} StripIdempotent(s: string)
    ensures Strip(Strip(s)) == Strip(s)
  {
    StripKeepsTrimmed(Strip(s));
  }

  /** The text that `str.replace("Assistant:", "")` deletes from a model reply. */
  const AssistantTag: string := "Assistant:"

  /** The tag occurs in `s` starting at index `i`. */
  predicate TagAt(s: string, i: int) {
    0 <= i && i + |AssistantTag| <= |s| && s[i..i + |AssistantTag|] == AssistantTag
  }

  /**
    `s.replace("Assistant:", "")`: scanning left to right, every occurrence of
    the tag that does not overlap an earlier removed one is deleted. Only whole
    tags are removed, so the length drops by a multiple of the tag length.
   */
  function RemoveTag(s: string): (r: string)
    ensures |r| <= |s|
    ensures (|s| - |r|) % |AssistantTag| == 0
    decreases |s|
  {
    if |s| < |AssistantTag| then s
    else if s[..|AssistantTag|] == AssistantTag then RemoveTag(s[|AssistantTag|..])
    else [s[0]] + RemoveTag(s[1..])
  }

  /** Text in which the tag never occurs comes back unchanged. */
  lemma {:induction false} RemoveTagKeepsUntagged(s: string)
    requires forall i :: 0 <= i < |s| ==> !TagAt(s, i)
    ensures RemoveTag(s) == s
    decreases |s|
  {
    if |s| >= |AssistantTag| {
      assert !TagAt(s, 0);
      forall i | 0 <= i < |s[1..]|
        ensures !TagAt(s[1..], i)
      {
        if i + |AssistantTag| <= |s| - 1 {
          assert s[1..][i..i + |AssistantTag|] == s[i + 1..i + 1 + |AssistantTag|];
        }
        assert !TagAt(s, i + 1);
      }
      RemoveTagKeepsUntagged(s[1..]);
    }
  }

  /** A tag at the very start of the text is always removed. */
  lemma RemoveTagDropsLeadingTag(s: string)
    ensures RemoveTag(AssistantTag + s) == RemoveTag(s)
  {
    assert (AssistantTag + s)[..|AssistantTag|] == AssistantTag;
    assert (AssistantTag + s)[|AssistantTag|..] == s;
  }

  /**
    A tag that follows tag-free text is removed too: the text before it is
    kept and the text after it is processed the same way.
   */
  lemma {:induction false} RemoveTagDropsTagAfter(p: string, q: string)
    requires forall i :: 0 <= i < |p| ==> !TagAt(p + AssistantTag + q, i)
    ensures RemoveTag(p + AssistantTag + q) == p + RemoveTag(q)
    decreases |p|
  {
    var s := p + AssistantTag + q;
    if p == [] {
      assert s == AssistantTag + q;
      RemoveTagDropsLeadingTag(q);
    } else {
      var t := p[1..] + AssistantTag + q;
      assert s[1..] == t;
      RemoveTagStep(s);
      forall i | 0 <= i < |p[1..]|
        ensures !TagAt(t, i)
      {
        if TagAt(t, i) {
          TagAtTail(s, i);
        }
      }
      RemoveTagDropsTagAfter(p[1..], q);
      calc {
        RemoveTag(s);
        [s[0]] + RemoveTag(t);
        [s[0]] + (p[1..] + RemoveTag(q));
        ([s[0]] + p[1..]) + RemoveTag(q);
        { assert [s[0]] + p[1..] == p; }
        p + RemoveTag(q);
      }
    }
  }

  /** Where no tag starts, one character is kept and the scan moves on by one. */
  lemma RemoveTagStep(s: string)
    requires |s| >= |AssistantTag| && !TagAt(s, 0)
    ensures RemoveTag(s) == [s[0]] + RemoveTag(s[1..])
  {
  }

  /** A tag in the tail of a text is a tag in the text, one position later. */
  lemma TagAtTail(s: string, i: int)
    requires |s| > 0 && TagAt(s[1..], i)
    ensures TagAt(s, i + 1)
  {
    assert s[1..][i..i + |AssistantTag|] == s[i + 1..i + 1 + |AssistantTag|];
  }

  /**
    Python's `sep.join(lines)`: the lines in order with `sep` between
    neighbours; so it is empty for no lines, is the line itself for one
    line, and otherwise starts with the first line and ends with the last.
   */
  function Join(lines: seq<string>, sep: string): (r: string)
    ensures lines == [] ==> r == []
    ensures |lines| == 1 ==> r == lines[0]
    ensures lines != [] ==> var last := lines[|lines| - 1];
              && lines[0] <= r && |last| <= |r| && r[|r| - |last|..] == last
  {
    if |lines| == 0 then ""
    else if |lines| == 1 then lines[0]
    else
      var front := lines[..|lines| - 1];
      assert front[0] == lines[0];
      Join(front, sep) + sep + lines[|lines| - 1]
  }

  /** Joining one more line adds the separator and that line at the end. */
  lemma JoinSnoc(lines: seq<string>, line: string, sep: string)
    requires lines != []
    ensures Join(lines + [line], sep) == Join(lines, sep) + sep + line
  {
    assert (lines + [line])[..|lines|] == lines;
  }

  predicate IsDigit(c: char) {
    '0' <= c <= '9'
  }

  predicate AllDigits(s: string) {
    forall i :: 0 <= i < |s| ==> IsDigit(s[i])
  }

  function DigitChar(d: nat): (c: char)
    requires d < 10
    ensures IsDigit(c) && c as int - '0' as int == d
  {
    (d + '0' as int) as char
  }

  /** The number a string of decimal digits denotes (the inverse of `NatToDecimal`). */
  function DecimalValue(s: string): nat
    requires AllDigits(s)
  {
    if s == [] then 0
    else 10 * DecimalValue(s[..|s| - 1]) + (s[|s| - 1] as int - '0' as int)
  }

  /**
    Python's `str(n)` for a non-negative integer: a non-empty run of decimal
    digits with no leading zero, from which `DecimalValue` recovers `n`.
   */
  function NatToDecimal(n: nat): (r: string)
    ensures r != [] && AllDigits(r)
    ensures |r| > 1 ==> r[0] != '0'
    ensures DecimalValue(r) == n
    decreases n
  {
    if n < 10 then [DigitChar(n)]
    else
      var front := NatToDecimal(n / 10);
      var r := front + [DigitChar(n % 10)];
      assert r[..|r| - 1] == front;
      r
  }

  /** Different numbers render differently. */
  lemma NatToDecimalInjective(a: nat, b: nat)
    ensures NatToDecimal(a) == NatToDecimal(b) <==> a == b
  {
  }
}
