/** The Ruby and ActiveSupport string operations the renderer relies on:
    `String#strip`, `String#blank?`/`present?` and `String#lines`. */
module RubyText {

  /** The characters `String#strip` removes at either end: NUL, horizontal
      tab, line feed, vertical tab, form feed, carriage return and space. */
  predicate IsStripSpace(c: char)
  {
    c == '\0' || (9 <= c as int <= 13) || c == ' '
  }

  /** The characters of the POSIX class `[[:space:]]` on Unicode text, which
      ActiveSupport's `String#blank?` accepts. */
  predicate IsBlankSpace(c: char)
  {
    var n := c as int;
    (9 <= n <= 13) || n == 0x20 || n == 0x85 || n == 0xA0 || n == 0x1680 ||
    (0x2000 <= n <= 0x200A) || n == 0x2028 || n == 0x2029 || n == 0x202F ||
    n == 0x205F || n == 0x3000
  }

  /** `String#lstrip`. */
  function LStrip(s: string): (r: string)
    ensures |r| <= |s| && r == s[|s| - |r|..]
    ensures r != [] ==> !IsStripSpace(r[0])
    ensures forall k :: 0 <= k < |s| - |r| ==> IsStripSpace(s[k])
    decreases |s|
  {
    if s != [] && IsStripSpace(s[0]) then LStrip(s[1..]) else s
  }

  /** `String#rstrip`. */
  function RStrip(s: string): (r: string)
    ensures |r| <= |s| && r == s[..|r|]
    ensures r != [] ==> !IsStripSpace(r[|r| - 1])
    ensures forall k :: |r| <= k < |s| ==> IsStripSpace(s[k])
    decreases |s|
  {
    if s != [] && IsStripSpace(s[|s| - 1]) then RStrip(s[..|s| - 1]) else s
  }

  /** Where `String#strip` starts cutting: the number of leading strip
      characters. */
  function StripOffset(s: string): (i: nat)
    ensures i <= |s|
  {
    |s| - |LStrip(s)|
  }

  /** `String#strip`: the infix of `s` starting at `StripOffset(s)` that
      neither starts nor ends with a strip character, everything cut off at
      either end being strip characters. */
  function Strip(s: string): (r: string)
    ensures StripOffset(s) + |r| <= |s|
    ensures r == s[StripOffset(s)..StripOffset(s) + |r|]
    ensures forall k :: 0 <= k < StripOffset(s) ==> IsStripSpace(s[k])
    ensures forall k :: StripOffset(s) + |r| <= k < |s| ==> IsStripSpace(s[k])
    ensures r != [] ==> !IsStripSpace(r[0]) && !IsStripSpace(r[|r| - 1])
  {
    var left := LStrip(s);
    var r := RStrip(left);
    InfixOfSuffix(s, left, r);
    r
  }

  /** A prefix `r` of a suffix `left` of `s` is an infix of `s`, and what
      follows `r` in `left` is what follows it in `s`. */
  lemma InfixOfSuffix(s: string, left: string, r: string)
    requires |left| <= |s| && left == s[|s| - |left|..]
    requires |r| <= |left| && r == left[..|r|]
    requires forall k :: |r| <= k < |left| ==> IsStripSpace(left[k])
    ensures var i := |s| - |left|;
      r == s[i..i + |r|] && forall k :: i + |r| <= k < |s| ==> IsStripSpace(s[k])
  {
    var i := |s| - |left|;
    forall k | i + |r| <= k < |s| ensures IsStripSpace(s[k]) {
      assert s[k] == left[k - i];
    }
  }

  /** ActiveSupport's `String#blank?`: empty, or nothing but spaces. */
  predicate IsBlank(s: string)
  {
    forall k :: 0 <= k < |s| ==> IsBlankSpace(s[k])
  }

  /** Every strip character except NUL is a blank character. */
  lemma StripSpaceIsBlankExceptNul(c: char)
    requires IsStripSpace(c) && c != '\0'
    ensures IsBlankSpace(c)
  {
  }

  /** `s.strip.present?` holds when the text has a character that is
      neither a space nor NUL: `strip` cannot remove it. */
  lemma StrippedPresent(s: string, k: nat)
    requires k < |s| && !IsBlankSpace(s[k]) && s[k] != '\0'
    ensures !IsBlank(Strip(s))
  {
    var r := Strip(s);
    var i := StripOffset(s);
    assert !IsStripSpace(s[k]);
    assert i <= k < i + |r|;
    assert r[k - i] == s[k];
  }

  /** A text made of strip characters only is stripped to nothing, so it
      is not present. */
  lemma StrippedAbsent(s: string)
    requires forall k :: 0 <= k < |s| ==> IsStripSpace(s[k])
    ensures Strip(s) == []
  {
  }

  /** The concatenation of a list of strings. */
  function Concat(parts: seq<string>): string
    decreases |parts|
  {
    if parts == [] then [] else parts[0] + Concat(parts[1..])
  }

  /** The length of the first line of a non-empty text, its line feed
      included. */
  function FirstLineLength(s: string): (n: nat)
    requires s != []
    ensures 0 < n <= |s|
    ensures s[n - 1] == '\n' || n == |s|
    ensures forall j :: 0 <= j < n - 1 ==> s[j] != '\n'
    decreases |s|
  {
    if s[0] == '\n' || |s| == 1 then 1 else 1 + FirstLineLength(s[1..])
  }

  /** `String#lines`: the text cut after every line feed, each line keeping
      its line feed. The lines put back together give the text again. */
  function Lines(s: string): (lines: seq<string>)
    ensures Concat(lines) == s
    decreases |s|
  {
    if s == [] then []
    else
      var n := FirstLineLength(s);
      var lines := [s[..n]] + Lines(s[n..]);
      assert lines[1..] == Lines(s[n..]);
      assert s[..n] + s[n..] == s;
      lines
  }

  /** A line as `String#lines` cuts it: non-empty, with no line feed
      before its last character. */
  predicate ProperLine(line: string)
  {
    line != [] && forall j :: 0 <= j < |line| - 1 ==> line[j] != '\n'
  }

  predicate EndsWithFeed(line: string)
  {
    line != [] && line[|line| - 1] == '\n'
  }

  /** Each line of `String#lines` is a proper line; every line but the last
      ends with a line feed, and the last does exactly when the text does. */
  lemma {:induction false} LinesShape(s: string)
    ensures Lines(s) == [] <==> s == []
    ensures forall k :: 0 <= k < |Lines(s)| ==> ProperLine(Lines(s)[k])
    ensures forall k :: 0 <= k < |Lines(s)| - 1 ==> EndsWithFeed(Lines(s)[k])
    ensures s != [] ==> (EndsWithFeed(Lines(s)[|Lines(s)| - 1]) <==> s[|s| - 1] == '\n')
    decreases |s|
  {
    if s != [] {
      var n := FirstLineLength(s);
      var head := s[..n];
      var rest := Lines(s[n..]);
      LinesShape(s[n..]);
      assert Lines(s) == [head] + rest;
      assert ProperLine(head);
      if rest != [] {
        assert n < |s|;
        assert EndsWithFeed(head);
        assert s[n..][|s[n..]| - 1] == s[|s| - 1];
      } else {
        assert n == |s|;
      }
    }
  }
}
