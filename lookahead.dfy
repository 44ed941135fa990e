// The read-only lookahead scanners of the tokenizer engine (LookOver*).
// Each is a function of the text, the cursor position `next`, the end of the
// tokenized range `end` and an offset relative to `next`; none of them moves
// the cursor. Every character is read through CharAt, whose precondition is
// the engine's HasMoreChar guard, so no scanner reads at or past `end`.

module Lookahead {
  import opened CharClass

  /** The cursor invariant of the string backing: 0 <= next <= end <= |text|. */
  predicate InRange(text: string, next: int, end: int)
  {
    0 <= next <= end <= |text|
  }

  /** Reading the character at absolute position i, allowed only below end. */
  function CharAt(text: string, end: int, i: int): char
    requires 0 <= i < end <= |text|
  {
    text[i]
  }

  /** The first position at or after i where p fails, or end: the end of a
      maximal run of characters satisfying p (RunEndIsMaximal). */
  function RunEnd(text: string, i: int, end: int, p: char -> bool): (j: int)
    requires 0 <= i <= end <= |text|
    ensures i <= j <= end
    decreases end - i
  {
    if i == end || !p(CharAt(text, end, i)) then i else RunEnd(text, i + 1, end, p)
  }

  /** Every character of the run satisfies p, and the run stops at end or
      at a character that does not. */
  lemma {:induction false} RunEndIsMaximal(text: string, i: int, end: int, p: char -> bool)
    requires 0 <= i <= end <= |text|
    ensures forall k | i <= k < RunEnd(text, i, end, p) :: p(text[k])
    ensures RunEnd(text, i, end, p) == end || !p(text[RunEnd(text, i, end, p)])
    decreases end - i
  {
    if i < end && p(text[i]) {
      RunEndIsMaximal(text, i + 1, end, p);
    }
  }

  /** A run is determined by where it stops: any j that ends a maximal
      p-run from i is RunEnd. */
  lemma {:induction false} RunEndUnique(text: string, i: int, end: int, p: char -> bool, j: int)
    requires 0 <= i <= j <= end <= |text|
    requires forall k | i <= k < j :: p(text[k])
    requires j == end || !p(text[j])
    ensures RunEnd(text, i, end, p) == j
    decreases j - i
  {
    if i < j {
      RunEndUnique(text, i + 1, end, p, j);
    }
  }

  /** LookOverUnicodeCode loop: at most `cap` hex digits from position i. */
  function HexRun(text: string, i: int, end: int, cap: nat): (d: nat)
    requires 0 <= i && end <= |text|
    ensures d <= cap
    ensures d > 0 ==> i + d <= end
    decreases cap
  {
    if cap == 0 || i >= end || !IsHexDigit(CharAt(text, end, i)) then 0
    else 1 + HexRun(text, i + 1, end, cap - 1)
  }

  /** HexRun counts hex digits only, and stops short of the cap only at end
      or at a character that is not a hex digit. */
  lemma {:induction false} HexRunCounts(text: string, i: int, end: int, cap: nat)
    requires 0 <= i && end <= |text|
    ensures forall k | i <= k < i + HexRun(text, i, end, cap) :: IsHexDigit(text[k])
    ensures HexRun(text, i, end, cap) < cap ==> i + HexRun(text, i, end, cap) >= end || !IsHexDigit(text[i + HexRun(text, i, end, cap)])
    decreases cap
  {
    if cap > 0 && i < end && IsHexDigit(text[i]) {
      HexRunCounts(text, i + 1, end, cap - 1);
    }
  }

  /** LookOverUnicodeCode(offset): the number of hex digits starting at
      next + offset, capped at 6. */
  function LookOverUnicodeCode(text: string, next: int, end: int, offset: nat): (d: nat)
    requires InRange(text, next, end)
    ensures d <= 6
    ensures d > 0 ==> next + offset + d <= end
  {
    HexRun(text, next + offset, end, 6)
  }

  /** LookOverWhitespace(index): the length of the whitespace run at the
      cursor. The index argument is not used. */
  function LookOverWhitespace(text: string, next: int, end: int, index: int): (d: nat)
    requires InRange(text, next, end)
    ensures next + d <= end
  {
    RunEnd(text, next, end, IsWhitespace) - next
  }

  /** The index argument of LookOverWhitespace makes no difference, and the
      run it measures is the maximal whitespace run at the cursor. */
  lemma LookOverWhitespaceIgnoresIndex(text: string, next: int, end: int, i: int, j: int)
    requires InRange(text, next, end)
    ensures LookOverWhitespace(text, next, end, i) == LookOverWhitespace(text, next, end, j)
    ensures var d := LookOverWhitespace(text, next, end, i);
      && (forall k | next <= k < next + d :: IsWhitespace(text[k]))
      && (next + d == end || !IsWhitespace(text[next + d]))
  {
    RunEndIsMaximal(text, next, end, IsWhitespace);
  }

  /** A backslash at i that begins an escape: it is followed, before end, by
      a character that is not a line terminator. */
  predicate IsEscapeStart(text: string, i: int, end: int)
    requires 0 <= i < end <= |text|
  {
    text[i] == '\\' && i + 1 < end && !IsLineTerminator(text[i + 1])
  }

  /** The length of a backslash escape whose backslash is at position i, as
      LookOverNameChar and LookOverNameStartChar measure it: the number of
      hex digits after the backslash (the backslash itself is not counted),
      2 for a backslash before any other character that is not a line
      terminator, and 0 before a line terminator or at the end. */
  function EscapeStep(text: string, i: int, end: int): (d: nat)
    requires 0 <= i < end <= |text|
    ensures d <= 6
    ensures i + d <= end
    ensures d > 0 <==> i + 1 < end && !IsLineTerminator(text[i + 1])
  {
    if i + 1 < end then
      var c2 := CharAt(text, end, i + 1);
      if IsHexDigit(c2) then HexRun(text, i + 1, end, 6)
      else if !IsLineTerminator(c2) then 2
      else 0
    else 0
  }

  /** One step of a name scan at absolute position i: 1 for a name character
      (a name-start character when `start` holds), an escape's length after a
      backslash, 0 otherwise and at the end. */
  function NameStep(text: string, i: int, end: int, start: bool): (d: nat)
    requires 0 <= i && end <= |text|
    ensures d <= 6
    ensures d > 0 ==> i + d <= end
  {
    if i < end then
      var c := CharAt(text, end, i);
      if (if start then IsNameStartChar(c) else IsNameChar(c)) then 1
      else if c == '\\' then EscapeStep(text, i, end)
      else 0
    else 0
  }

  /** The length of the run of name steps starting at absolute position i. */
  function NameRun(text: string, i: int, end: int): (d: nat)
    requires 0 <= i && end <= |text|
    ensures d > 0 ==> i + d <= end
    decreases end - i
  {
    var s := NameStep(text, i, end, false);
    if s > 0 then s + NameRun(text, i + s, end) else 0
  }

  /** The length of an identifier at absolute position i: a name-start step
      followed by a name, or 0. */
  function IdentifierRun(text: string, i: int, end: int): (d: nat)
    requires 0 <= i && end <= |text|
    ensures d > 0 ==> i + d <= end
  {
    var s := NameStep(text, i, end, true);
    if s > 0 then s + NameRun(text, i + s, end) else 0
  }

  /** LookOverNameChar(offset): 1 for a name character, an escape's length
      after a backslash, 0 otherwise. */
  function LookOverNameChar(text: string, next: int, end: int, offset: nat): (d: nat)
    requires InRange(text, next, end)
    ensures d <= 6
    ensures d > 0 ==> next + offset + d <= end
    ensures d > 0 <==> next + offset < end && (IsNameChar(text[next + offset]) || IsEscapeStart(text, next + offset, end))
  {
    NameStep(text, next + offset, end, false)
  }

  /** LookOverNameStartChar(offset): as LookOverNameChar, with name-start
      characters in place of name characters. */
  function LookOverNameStartChar(text: string, next: int, end: int, offset: nat): (d: nat)
    requires InRange(text, next, end)
    ensures d <= 6
    ensures d > 0 ==> next + offset + d <= end
    ensures d > 0 <==> next + offset < end && (IsNameStartChar(text[next + offset]) || IsEscapeStart(text, next + offset, end))
  {
    NameStep(text, next + offset, end, true)
  }

  /** LookOverName(offset): the length of the run of name steps starting at
      next + offset. */
  function LookOverName(text: string, next: int, end: int, offset: nat): (d: nat)
    requires InRange(text, next, end)
    ensures d > 0 ==> next + offset + d <= end
    ensures d > 0 <==> LookOverNameChar(text, next, end, offset) > 0
  {
    NameRun(text, next + offset, end)
  }

  /** LookOverIdentifier(offset): a name-start step followed by a name, or 0. */
  function LookOverIdentifier(text: string, next: int, end: int, offset: nat): (d: nat)
    requires InRange(text, next, end)
    ensures d > 0 ==> next + offset + d <= end
    ensures d > 0 <==> LookOverNameStartChar(text, next, end, offset) > 0
  {
    IdentifierRun(text, next + offset, end)
  }

  /** LookOverUnicodeChar(offset): the length of a backslash-hex escape, 0 for
      anything else. */
  function LookOverUnicodeChar(text: string, next: int, end: int, offset: nat): (d: nat)
    requires InRange(text, next, end)
    ensures d <= 6
    ensures d > 0 ==> next + offset + d <= end
    ensures d > 0 <==> next + offset + 1 < end && text[next + offset] == '\\' && IsHexDigit(text[next + offset + 1])
  {
    var i := next + offset;
    if i + 1 < end && CharAt(text, end, i) == '\\' && IsHexDigit(CharAt(text, end, i + 1)) then
      HexRun(text, i + 1, end, 6)
    else 0
  }

  // A reference reading of names in which an escape's length counts its
  // backslash (as in the escape production of CSS 2.1, section 4.1.1). The
  // scanners above do not count it, so after a hex escape they stand on its
  // last hex digit; since hex digits are name characters, the next step
  // reads that digit once more and the totals agree.

  /** The length of the escape at i with its backslash counted. */
  function FullEscapeLength(text: string, i: int, end: int): (d: nat)
    requires 0 <= i < end <= |text|
    ensures i + d <= end
    ensures d > 0 <==> i + 1 < end && !IsLineTerminator(text[i + 1])
  {
    var d := EscapeStep(text, i, end);
    if d > 0 && IsHexDigit(CharAt(text, end, i + 1)) then d + 1 else d
  }

  /** One reference name step: a name character or a full escape. */
  function FullNameStep(text: string, i: int, end: int, start: bool): (d: nat)
    requires 0 <= i && end <= |text|
    ensures d > 0 ==> i + d <= end
  {
    if i < end then
      var c := CharAt(text, end, i);
      if (if start then IsNameStartChar(c) else IsNameChar(c)) then 1
      else if c == '\\' then FullEscapeLength(text, i, end)
      else 0
    else 0
  }

  /** The reference length of the name starting at i. */
  function ReferenceNameLength(text: string, i: int, end: int): (d: nat)
    requires 0 <= i && end <= |text|
    decreases end - i
  {
    var s := FullNameStep(text, i, end, false);
    if s > 0 then s + ReferenceNameLength(text, i + s, end) else 0
  }

  /** The reference length of the identifier starting at i. */
  function ReferenceIdentifierLength(text: string, i: int, end: int): (d: nat)
    requires 0 <= i && end <= |text|
  {
    var s := FullNameStep(text, i, end, true);
    if s > 0 then s + ReferenceNameLength(text, i + s, end) else 0
  }

  /** A scan step and a reference step agree everywhere except on a hex
      escape, where the reference step also counts the backslash. */
  lemma StepsAgree(text: string, i: int, end: int, start: bool)
    requires 0 <= i && end <= |text|
    ensures if i + 1 < end && text[i] == '\\' && IsHexDigit(text[i + 1]) then
        && FullNameStep(text, i, end, start) == NameStep(text, i, end, start) + 1
        && 1 <= NameStep(text, i, end, start)
        && IsHexDigit(text[i + NameStep(text, i, end, start)])
      else NameStep(text, i, end, start) == FullNameStep(text, i, end, start)
  {
    if i + 1 < end && text[i] == '\\' && IsHexDigit(text[i + 1]) {
      HexRunCounts(text, i + 1, end, 6);
    }
  }

  /** After a hex escape of t hex digits the scan stands on the escape's last
      hex digit, a name character, and steps over it: two steps that together
      cover the backslash and the hex digits, as one reference step does. */
  lemma HexDigitStep(text: string, i: int, end: int, t: nat)
    requires 0 <= i && i + t < end <= |text| && IsHexDigit(text[i + t])
    ensures NameRun(text, i + t, end) == 1 + NameRun(text, i + t + 1, end)
  {
    HexDigitIsNameChar(text[i + t]);
    assert NameStep(text, i + t, end, false) == 1;
  }

  /** The name scan agrees with the reference reading from position i:
      not counting the backslash of an escape never changes the length of
      a name. */
  lemma {:induction false} NameRunIsReference(text: string, i: int, end: int)
    requires 0 <= i && end <= |text|
    ensures NameRun(text, i, end) == ReferenceNameLength(text, i, end)
    decreases end - i
  {
    NameRunStep(text, i, end);
    var s := FullNameStep(text, i, end, false);
    if s > 0 {
      NameRunIsReference(text, i + s, end);
    }
  }

  /** One reference step is matched by the scan: both stop at i, or the scan
      goes on from the position the reference step reaches. */
  lemma NameRunStep(text: string, i: int, end: int)
    requires 0 <= i && end <= |text|
    ensures var s := FullNameStep(text, i, end, false);
      NameRun(text, i, end) == if s > 0 then s + NameRun(text, i + s, end) else 0
  {
    StepsAgree(text, i, end, false);
    var s := FullNameStep(text, i, end, false);
    var t := NameStep(text, i, end, false);
    if 0 < t < s {
      HexDigitStep(text, i, end, t);
      assert i + t + 1 == i + s;
    }
  }

  /** LookOverName agrees with the reference reading. */
  lemma LookOverNameIsReference(text: string, next: int, end: int, offset: nat)
    requires InRange(text, next, end)
    ensures LookOverName(text, next, end, offset) == ReferenceNameLength(text, next + offset, end)
  {
    NameRunIsReference(text, next + offset, end);
  }

  /** LookOverIdentifier agrees with the reference reading: after a hex
      escape as its first step, the name scan covers the escape's last hex
      digit once more. */
  lemma LookOverIdentifierIsReference(text: string, next: int, end: int, offset: nat)
    requires InRange(text, next, end)
    ensures LookOverIdentifier(text, next, end, offset) == ReferenceIdentifierLength(text, next + offset, end)
  {
    IdentifierRunStep(text, next + offset, end);
    var s := FullNameStep(text, next + offset, end, true);
    if s > 0 {
      NameRunIsReference(text, next + offset + s, end);
    }
  }

  /** NameRunStep for the first step of an identifier. */
  lemma IdentifierRunStep(text: string, i: int, end: int)
    requires 0 <= i && end <= |text|
    ensures var s := FullNameStep(text, i, end, true);
      IdentifierRun(text, i, end) == if s > 0 then s + NameRun(text, i + s, end) else 0
  {
    StepsAgree(text, i, end, true);
    var s := FullNameStep(text, i, end, true);
    var t := NameStep(text, i, end, true);
    if 0 < t < s {
      HexDigitStep(text, i, end, t);
      assert i + t + 1 == i + s;
    }
  }
}
