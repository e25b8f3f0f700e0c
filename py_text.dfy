/** The Python string operations the core relies on: `"\n".join(parts)`,
    `s.split('\n')`, `s.strip()` and `str(n)` of a natural number. */
module PyText {

  /** Python's `"\n".join(parts)`. */
  function JoinLines(parts: seq<string>): string
  {
    if |parts| == 0 then ""
    else if |parts| == 1 then parts[0]
    else parts[0] + "\n" + JoinLines(parts[1..])
  }

  /** How many newline characters `s` holds. */
  function Newlines(s: string): nat
  {
    if s == [] then 0 else (if s[0] == '\n' then 1 else 0) + Newlines(s[1..])
  }

  /** Python's `s.split('\n')`: the pieces between newline characters.
      There is always one piece more than there are newlines, so even the
      empty string splits into one (empty) piece. */
  function SplitLines(s: string): (parts: seq<string>)
    ensures |parts| == Newlines(s) + 1
    ensures forall i :: 0 <= i < |parts| ==> '\n' !in parts[i]
  {
    if s == [] then [""]
    else
      var rest := SplitLines(s[1..]);
      assert s == [s[0]] + s[1..];
      if s[0] == '\n' then [""] + rest
      else [[s[0]] + rest[0]] + rest[1..]
  }

  /** The characters Python's `str.isspace()` accepts, which are the ones
      `str.strip()` removes when called without an argument. */
  predicate IsSpace(c: char)
  {
    c == ' ' || '\t' <= c <= '\r' || '\U{1C}' <= c <= '\U{1F}'
    || c == '\U{85}' || c == '\U{A0}' || c == '\U{1680}'
    || '\U{2000}' <= c <= '\U{200A}' || c == '\U{2028}' || c == '\U{2029}'
    || c == '\U{202F}' || c == '\U{205F}' || c == '\U{3000}'
  }

  /** The index of the first character at or after `i` that is not white
      space, or `|s|` if there is none. */
  function LeadingEnd(s: string, i: nat): (e: nat)
    requires i <= |s|
    ensures i <= e <= |s|
    decreases |s| - i
  {
    if i < |s| && IsSpace(s[i]) then LeadingEnd(s, i + 1) else i
  }

  /** The index just past the last character before `j` that is not white
      space, or 0 if there is none. */
  function TrailingStart(s: string, j: nat): (b: nat)
    requires j <= |s|
    ensures b <= j
  {
    if j > 0 && IsSpace(s[j - 1]) then TrailingStart(s, j - 1) else j
  }

  /** `s.lstrip()`. */
  function StripLeft(s: string): string
  {
    s[LeadingEnd(s, 0)..]
  }

  /** `s.rstrip()`. */
  function StripRight(s: string): string
  {
    s[..TrailingStart(s, |s|)]
  }

  /** The scan from `i` passes white space only and stops at the end or at
      a character that is not white space. */
  lemma {:induction false} LeadingEndSpec(s: string, i: nat)
    requires i <= |s|
    ensures forall k :: i <= k < LeadingEnd(s, i) ==> IsSpace(s[k])
    ensures LeadingEnd(s, i) == |s| || !IsSpace(s[LeadingEnd(s, i)])
    decreases |s| - i
  {
    if i < |s| && IsSpace(s[i]) {
      LeadingEndSpec(s, i + 1);
    }
  }

  /** The scan down from `j` passes white space only and stops at the start
      or just after a character that is not white space. */
  lemma {:induction false} TrailingStartSpec(s: string, j: nat)
    requires j <= |s|
    ensures forall k :: TrailingStart(s, j) <= k < j ==> IsSpace(s[k])
    ensures TrailingStart(s, j) == 0 || !IsSpace(s[TrailingStart(s, j) - 1])
  {
    if j > 0 && IsSpace(s[j - 1]) {
      TrailingStartSpec(s, j - 1);
    }
  }

  /** `s.strip()`. */
  function Strip(s: string): string
  {
    StripRight(StripLeft(s))
  }

  /** `strip` removes white space from both ends and nothing else: it gives
      a slice of the line with only white space around it, that slice
      neither starts nor ends with white space, and a line that already does
      neither is left unchanged. */
  lemma StripSpec(s: string)
    ensures |Strip(s)| <= |s|
    ensures exists a, b :: 0 <= a <= b <= |s| && Strip(s) == s[a..b]
                           && (forall k :: 0 <= k < a ==> IsSpace(s[k]))
                           && (forall k :: b <= k < |s| ==> IsSpace(s[k]))
    ensures Strip(s) == [] || (!IsSpace(Strip(s)[0]) && !IsSpace(Strip(s)[|Strip(s)| - 1]))
    ensures (s == [] || (!IsSpace(s[0]) && !IsSpace(s[|s| - 1]))) ==> Strip(s) == s
  {
    var left := StripLeft(s);
    LeadingEndSpec(s, 0);
    TrailingStartSpec(left, |left|);
    var r := StripRight(left);
    assert r != [] ==> r[0] == left[0];
    var a := LeadingEnd(s, 0);
    var b := a + TrailingStart(left, |left|);
    assert r == s[a..b];
    forall k | b <= k < |s|
      ensures IsSpace(s[k])
    {
      assert s[k] == left[k - a];
    }
  }

  /** Splitting a line that holds no newline gives back that line alone. */
  lemma {:induction false} SplitSingle(a: string)
    requires '\n' !in a
    ensures SplitLines(a) == [a]
  {
    if a != [] {
      assert a == [a[0]] + a[1..];
      SplitSingle(a[1..]);
    }
  }

  /** A newline after a newline-free line ends exactly that piece. */
  lemma {:induction false} SplitAfterLine(a: string, b: string)
    requires '\n' !in a
    ensures SplitLines(a + "\n" + b) == [a] + SplitLines(b)
  {
    if a == [] {
      assert a + "\n" + b == ['\n'] + b;
      assert (['\n'] + b)[1..] == b;
    } else {
      var s := a + "\n" + b;
      assert s[0] == a[0];
      assert s[1..] == a[1..] + "\n" + b;
      assert a == [a[0]] + a[1..];
      SplitAfterLine(a[1..], b);
    }
  }

  /** Joining with newlines and splitting again gives back the lines, as long
      as there is at least one line and no line holds a newline itself. */
  lemma {:induction false} SplitJoin(parts: seq<string>)
    requires |parts| >= 1
    requires forall i :: 0 <= i < |parts| ==> '\n' !in parts[i]
    ensures SplitLines(JoinLines(parts)) == parts
  {
    if |parts| == 1 {
      SplitSingle(parts[0]);
    } else {
      SplitAfterLine(parts[0], JoinLines(parts[1..]));
      SplitJoin(parts[1..]);
    }
  }

  /** Prefixing the first line with a character prefixes the joined text. */
  lemma {:induction false} JoinConsFirst(c: char, parts: seq<string>)
    requires |parts| >= 1
    ensures JoinLines([[c] + parts[0]] + parts[1..]) == [c] + JoinLines(parts)
  {
    var q := [[c] + parts[0]] + parts[1..];
    assert q[0] == [c] + parts[0];
    if |parts| > 1 {
      assert q[1..] == parts[1..];
    }
  }

  /** Splitting and joining again gives back any text. */
  lemma {:induction false} JoinSplit(s: string)
    ensures JoinLines(SplitLines(s)) == s
  {
    if s != [] {
      var rest := SplitLines(s[1..]);
      JoinSplit(s[1..]);
      if s[0] == '\n' {
        assert ([""] + rest)[1..] == rest;
        assert s == "" + "\n" + s[1..];
      } else {
        JoinConsFirst(s[0], rest);
        assert s == [s[0]] + s[1..];
      }
    }
  }

  /** The character of a decimal digit. */
  function DigitChar(d: nat): (c: char)
    requires d < 10
    ensures '0' <= c <= '9' && (c as int) - ('0' as int) == d
  {
    ['0', '1', '2', '3', '4', '5', '6', '7', '8', '9'][d]
  }

  /** The value of a decimal numeral. */
  function DigitsValue(s: string): int
  {
    if s == [] then 0
    else 10 * DigitsValue(s[..|s| - 1]) + ((s[|s| - 1] as int) - ('0' as int))
  }

  /** Python's `str(n)` for a natural number: decimal digits with no leading
      zero, whose value is `n`. */
  function NatString(n: nat): (s: string)
    ensures |s| >= 1 && forall i :: 0 <= i < |s| ==> '0' <= s[i] <= '9'
    ensures |s| > 1 ==> s[0] != '0'
    ensures DigitsValue(s) == n
  {
    if n < 10 then [DigitChar(n)]
    else
      var s := NatString(n / 10) + [DigitChar(n % 10)];
      assert s[..|s| - 1] == NatString(n / 10);
      s
  }
}
