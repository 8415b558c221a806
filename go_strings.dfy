/** Models of the pieces of Go's standard library that the service's text
    handling relies on: `unicode.IsSpace`, the `strings` helpers (HasPrefix,
    HasSuffix, Contains, TrimSpace, Trim, SplitN with a limit of 2, Fields,
    Join), decimal formatting of integers (`%d`) and the line splitting of
    `bufio.ScanLines`. */
module GoStrings {
  import opened Wrappers

  /** `unicode.IsSpace`: the Latin-1 spaces and the other Unicode White_Space
      characters. */
  predicate IsSpace(c: char) {
    c == ' ' || c == '\t' || c == '\n' || c == '\U{000B}' || c == '\U{000C}' || c == '\r'
    || c == '\U{0085}' || c == '\U{00A0}' || c == '\U{1680}'
    || ('\U{2000}' <= c <= '\U{200A}')
    || c == '\U{2028}' || c == '\U{2029}' || c == '\U{202F}' || c == '\U{205F}' || c == '\U{3000}'
  }

  predicate HasPrefix(s: string, prefix: string) {
    |prefix| <= |s| && s[..|prefix|] == prefix
  }

  /** A one-character prefix test is a test of the first character. */
  lemma HasPrefixOneChar(s: string, c: char)
    ensures HasPrefix(s, [c]) <==> |s| > 0 && s[0] == c
  {
    if |s| > 0 && s[0] == c {
      assert s[..1] == [c];
    }
  }

  predicate HasSuffix(s: string, suffix: string) {
    |suffix| <= |s| && s[|s| - |suffix|..] == suffix
  }

  predicate Contains(s: string, sub: string) {
    HasPrefix(s, sub) || (|s| > 0 && Contains(s[1..], sub))
  }

  /** An occurrence inside a prefix is an occurrence in the whole text. */
  lemma {:induction false} ContainsInPrefix(s: string, n: nat, sub: string)
    requires n <= |s| && Contains(s[..n], sub)
    ensures Contains(s, sub)
  {
    if HasPrefix(s[..n], sub) {
      assert s[..|sub|] == s[..n][..|sub|];
    } else {
      assert s[..n][1..] == s[1..][..n - 1];
      ContainsInPrefix(s[1..], n - 1, sub);
    }
  }

  /** An occurrence inside a suffix is an occurrence in the whole text. */
  lemma {:induction false} ContainsInSuffix(s: string, k: nat, sub: string)
    requires k <= |s| && Contains(s[k..], sub)
    ensures Contains(s, sub)
    decreases k
  {
    if k > 0 {
      assert s[1..][k - 1..] == s[k..];
      ContainsInSuffix(s[1..], k - 1, sub);
    }
  }

  /** An occurrence inside any slice is an occurrence in the whole text. */
  lemma ContainsInSlice(s: string, i: nat, j: nat, sub: string)
    requires i <= j <= |s| && Contains(s[i..j], sub)
    ensures Contains(s, sub)
  {
    assert s[i..j] == s[i..][..j - i];
    ContainsInPrefix(s[i..], j - i, sub);
    ContainsInSuffix(s, i, sub);
  }

  /** An occurrence at a known offset. */
  lemma ContainsAt(s: string, k: nat, sub: string)
    requires k <= |s| && HasPrefix(s[k..], sub)
    ensures Contains(s, sub)
  {
    ContainsInSuffix(s, k, sub);
  }

  /** A text made of `sub` between two others contains it. */
  lemma ContainsBetween(x: string, sub: string, y: string)
    ensures Contains(x + sub + y, sub)
  {
    var s := x + sub + y;
    assert s[|x|..][..|sub|] == sub;
    ContainsAt(s, |x|, sub);
  }

  /** `strings.TrimLeftFunc`: drop the longest prefix whose characters satisfy `f`. */
  function TrimLeftFunc(s: string, f: char -> bool): string {
    if |s| > 0 && f(s[0]) then TrimLeftFunc(s[1..], f) else s
  }

  /** `strings.TrimRightFunc`: drop the longest suffix whose characters satisfy `f`. */
  function TrimRightFunc(s: string, f: char -> bool): string {
    if |s| > 0 && f(s[|s| - 1]) then TrimRightFunc(s[..|s| - 1], f) else s
  }

  /** `strings.TrimSpace`. */
  function TrimSpace(s: string): string {
    TrimRightFunc(TrimLeftFunc(s, IsSpace), IsSpace)
  }

  /** `strings.Trim(s, q)` for a one-character cutset: every leading and every
      trailing copy of `q` is removed. */
  function TrimChar(s: string, q: char): string {
    TrimRightFunc(TrimLeftFunc(s, c => c == q), c => c == q)
  }

  /** What `TrimLeftFunc` keeps is a suffix that does not start with a
      character satisfying `f`. */
  lemma {:induction false} TrimLeftFuncSuffix(s: string, f: char -> bool)
    ensures var r := TrimLeftFunc(s, f);
      |r| <= |s| && r == s[|s| - |r|..] && (r == [] || !f(r[0]))
  {
    if |s| > 0 && f(s[0]) {
      TrimLeftFuncSuffix(s[1..], f);
    }
  }

  /** What `TrimRightFunc` keeps is a prefix that does not end with a
      character satisfying `f`. */
  lemma {:induction false} TrimRightFuncPrefix(s: string, f: char -> bool)
    ensures var r := TrimRightFunc(s, f);
      |r| <= |s| && r == s[..|r|] && (r == [] || !f(r[|r| - 1]))
  {
    if |s| > 0 && f(s[|s| - 1]) {
      TrimRightFuncPrefix(s[..|s| - 1], f);
    }
  }

  /** `TrimSpace` keeps the part of its input from offset `i` on that neither
      starts nor ends with white space. */
  lemma TrimSpaceTrims(s: string) returns (i: nat)
    ensures var r := TrimSpace(s);
      i + |r| <= |s| && r == s[i..i + |r|]
      && (r == [] || (!IsSpace(r[0]) && !IsSpace(r[|r| - 1])))
  {
    var l := TrimLeftFunc(s, IsSpace);
    TrimLeftFuncSuffix(s, IsSpace);
    TrimRightFuncPrefix(l, IsSpace);
    var r := TrimSpace(s);
    i := |s| - |l|;
    assert r == l[..|r|];
  }

  /** Index of the first occurrence of `c` in `s`, if any. */
  function IndexOf(s: string, c: char): (r: Option<nat>)
    ensures r.None? <==> c !in s
    ensures r.Some? ==> r.value < |s| && s[r.value] == c && c !in s[..r.value]
  {
    if |s| == 0 then None
    else if s[0] == c then Some(0)
    else match IndexOf(s[1..], c)
      case None => None
      case Some(i) => Some(i + 1)
  }

  /** `strings.SplitN(s, " ", 2)` when it yields two parts: the text before the
      first space and the text after it; `None` when `s` holds no space. */
  function SplitAtFirstSpace(s: string): (r: Option<(string, string)>)
    ensures r.None? <==> ' ' !in s
    ensures r.Some? ==> s == r.value.0 + " " + r.value.1 && ' ' !in r.value.0
  {
    match IndexOf(s, ' ')
    case None => None
    case Some(i) => Some((s[..i], s[i + 1..]))
  }

  /** The longest prefix of `s` holding no white space. */
  function Word(s: string): (w: string)
    ensures |w| <= |s| && w == s[..|w|]
    ensures |w| == |s| || IsSpace(s[|w|])
    ensures s != [] && !IsSpace(s[0]) ==> w != []
  {
    if |s| == 0 || IsSpace(s[0]) then [] else [s[0]] + Word(s[1..])
  }

  /** `strings.Fields`: the maximal runs of non-space characters, in order. */
  function Fields(s: string): seq<string>
    decreases |s|
  {
    if s == [] then []
    else if IsSpace(s[0]) then Fields(s[1..])
    else
      var w := Word(s);
      [w] + Fields(s[|w|..])
  }

  /** `strings.Join`. */
  function Join(parts: seq<string>, sep: string): string {
    if |parts| == 0 then ""
    else if |parts| == 1 then parts[0]
    else parts[0] + sep + Join(parts[1..], sep)
  }

  function DigitChar(d: nat): char
    requires d < 10
  {
    "0123456789"[d]
  }

  function DigitValue(c: char): Option<nat> {
    if '0' <= c <= '9' then Some((c - '0') as nat) else None
  }

  /** `%d` of a non-negative integer. */
  function NatToDecimal(n: nat): (r: string)
    ensures r != []
  {
    if n < 10 then [DigitChar(n)] else NatToDecimal(n / 10) + [DigitChar(n % 10)]
  }

  /** `%d` of any integer. */
  function IntToDecimal(i: int): string {
    if i < 0 then "-" + NatToDecimal(-i) else NatToDecimal(i)
  }

  /** Reads a non-empty run of decimal digits back into the number it denotes. */
  function ParseDecimal(s: string): Option<nat> {
    if |s| == 0 then None
    else if |s| == 1 then DigitValue(s[0])
    else match (ParseDecimal(s[..|s| - 1]), DigitValue(s[|s| - 1]))
      case (Some(p), Some(d)) => Some(10 * p + d)
      case _ => None
  }

  lemma {:induction false} DecimalRoundTrip(n: nat)
    ensures ParseDecimal(NatToDecimal(n)) == Some(n)
  {
    if n >= 10 {
      DecimalRoundTrip(n / 10);
      var s := NatToDecimal(n);
      assert s[..|s| - 1] == NatToDecimal(n / 10);
    }
  }

  /** One line as `bufio.ScanLines` returns it: a final carriage return is dropped. */
  function DropCarriageReturn(s: string): string {
    if |s| > 0 && s[|s| - 1] == '\r' then s[..|s| - 1] else s
  }

  /** `bufio.ScanLines` over a whole text: the lines separated by newlines, a
      last line without a newline included, no empty line after a final newline. */
  function ScanLines(s: string): (r: seq<string>)
    ensures s == [] ==> r == []
    decreases |s|
  {
    if s == [] then []
    else match IndexOf(s, '\n')
      case None => [DropCarriageReturn(s)]
      case Some(i) => [DropCarriageReturn(s[..i])] + ScanLines(s[i + 1..])
  }

  /** `TrimSpace` leaves alone a text that neither starts nor ends with white space. */
  lemma TrimSpaceNoOuterSpace(s: string)
    requires s != [] && !IsSpace(s[0]) && !IsSpace(s[|s| - 1])
    ensures TrimSpace(s) == s
  {
  }

  /** A text with no newline and no final carriage return is a single line. */
  lemma SingleLine(s: string)
    requires s != [] && '\n' !in s && s[|s| - 1] != '\r'
    ensures ScanLines(s) == [s]
  {
  }

  /** What `DropCarriageReturn` keeps is a prefix of its input. */
  lemma DropCarriageReturnPrefix(t: string)
    ensures var d := DropCarriageReturn(t); |d| <= |t| && d == t[..|d|]
  {
  }

  /** The scanner's first line is a prefix of the text, and the other lines
      are the scanner's lines of a proper suffix. */
  lemma ScanLinesShape(s: string) returns (off: nat)
    requires s != []
    ensures var lines := ScanLines(s);
      |lines| > 0 && |lines[0]| <= |s| && lines[0] == s[..|lines[0]|]
      && 0 < off <= |s| && lines[1..] == ScanLines(s[off..])
  {
    var lines := ScanLines(s);
    match IndexOf(s, '\n')
    case None =>
      DropCarriageReturnPrefix(s);
      off := |s|;
    case Some(i) =>
      DropCarriageReturnPrefix(s[..i]);
      off := i + 1;
      assert lines == [DropCarriageReturn(s[..i])] + ScanLines(s[off..]);
  }

  /** Every line the scanner yields is a piece of the text, so whatever a line
      contains, the text contains. */
  lemma {:induction false} ScanLinesContains(s: string, k: nat, sub: string)
    requires k < |ScanLines(s)| && Contains(ScanLines(s)[k], sub)
    ensures Contains(s, sub)
    decreases |s|
  {
    var lines := ScanLines(s);
    var off := ScanLinesShape(s);
    if k == 0 {
      ContainsInPrefix(s, |lines[0]|, sub);
    } else {
      assert lines[k] == ScanLines(s[off..])[k - 1];
      ScanLinesContains(s[off..], k - 1, sub);
      ContainsInSuffix(s, off, sub);
    }
  }
}
