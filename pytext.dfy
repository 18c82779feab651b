/** The few Python string operations the core relies on: `str.strip()`,
    `sep.join(parts)`, `s.split(sep)` and `str(n)` for a natural number. */
module PyText {

  /** `c.isspace()` in Python: the characters of bidirectional class WS, B or S
      or of category Zs. */
  predicate IsSpace(c: char) {
    var n := c as int;
    (0x09 <= n <= 0x0D) || (0x1C <= n <= 0x20) || n == 0x85 || n == 0xA0 ||
    n == 0x1680 || (0x2000 <= n <= 0x200A) || n == 0x2028 || n == 0x2029 ||
    n == 0x202F || n == 0x205F || n == 0x3000
  }

  predicate AllSpace(s: string) {
    forall k :: 0 <= k < |s| ==> IsSpace(s[k])
  }

  function StripLeft(s: string): string {
    if s != [] && IsSpace(s[0]) then StripLeft(s[1..]) else s
  }

  function StripRight(s: string): string {
    if s != [] && IsSpace(s[|s| - 1]) then StripRight(s[..|s| - 1]) else s
  }

  /** `s.strip()` */
  function Strip(s: string): string {
    StripRight(StripLeft(s))
  }

  /** StripLeft drops exactly the longest all-space prefix. */
  lemma {:induction false} StripLeftIsSuffix(s: string)
    ensures var r := StripLeft(s);
      |r| <= |s| && r == s[|s| - |r|..] && AllSpace(s[..|s| - |r|]) &&
      (r != [] ==> !IsSpace(r[0]))
  {
    if s != [] && IsSpace(s[0]) {
      StripLeftIsSuffix(s[1..]);
      var r := StripLeft(s[1..]);
      assert s[1..][|s| - 1 - |r|..] == s[|s| - |r|..];
      assert s[..|s| - |r|] == [s[0]] + s[1..][..|s| - 1 - |r|];
    } else {
      assert s[..0] == [];
    }
  }

  /** StripRight drops exactly the longest all-space suffix. */
  lemma {:induction false} StripRightIsPrefix(s: string)
    ensures var r := StripRight(s);
      |r| <= |s| && r == s[..|r|] && AllSpace(s[|r|..]) &&
      (r != [] ==> !IsSpace(r[|r| - 1]))
  {
    if s != [] && IsSpace(s[|s| - 1]) {
      var t := s[..|s| - 1];
      StripRightIsPrefix(t);
      var r := StripRight(t);
      assert t[..|r|] == s[..|r|];
      assert s[|r|..] == t[|r|..] + [s[|s| - 1]];
    } else {
      assert s[|s|..] == [];
    }
  }

  /** `s.strip()` is empty exactly when `s` holds only whitespace. */
  lemma StripEmptyIff(s: string)
    ensures Strip(s) == [] <==> AllSpace(s)
  {
    StripLeftIsSuffix(s);
    var l := StripLeft(s);
    StripRightIsPrefix(l);
    if AllSpace(s) {
      AllSpaceStripLeft(s);
    }
  }

  /** A stripped string neither starts nor ends with whitespace. */
  lemma StripEnds(s: string)
    ensures var r := Strip(s);
      r != [] ==> !IsSpace(r[0]) && !IsSpace(r[|r| - 1])
  {
    StripLeftIsSuffix(s);
    var l := StripLeft(s);
    StripRightIsPrefix(l);
    var r := StripRight(l);
    if r != [] {
      assert r[0] == l[0];
    }
  }

  lemma {:induction false} StripLeftSpaceTail(s: string, t: string)
    requires AllSpace(t)
    ensures StripLeft(s + t) == if AllSpace(s) then [] else StripLeft(s) + t
    decreases |s|
  {
    if s == [] {
      assert s + t == t;
      AllSpaceStripLeft(t);
    } else {
      assert (s + t)[0] == s[0];
      assert (s + t)[1..] == s[1..] + t;
      if IsSpace(s[0]) {
        StripLeftSpaceTail(s[1..], t);
        if AllSpace(s[1..]) {
          assert AllSpace(s) by {
            forall k | 0 <= k < |s| ensures IsSpace(s[k]) {
              if k > 0 { assert s[k] == s[1..][k - 1]; }
            }
          }
        } else {
          assert !AllSpace(s) by {
            var k :| 0 <= k < |s[1..]| && !IsSpace(s[1..][k]);
            assert s[k + 1] == s[1..][k];
          }
        }
      }
    }
  }

  lemma {:induction false} AllSpaceStripLeft(t: string)
    requires AllSpace(t)
    ensures StripLeft(t) == []
    decreases |t|
  {
    if t != [] {
      assert AllSpace(t[1..]) by {
        forall k | 0 <= k < |t[1..]| ensures IsSpace(t[1..][k]) { assert t[1..][k] == t[k + 1]; }
      }
      AllSpaceStripLeft(t[1..]);
    }
  }

  lemma {:induction false} StripRightSpaceTail(s: string, t: string)
    requires AllSpace(t)
    ensures StripRight(s + t) == StripRight(s)
    decreases |t|
  {
    if t == [] {
      assert s + t == s;
    } else {
      var u := s + t;
      assert u[|u| - 1] == t[|t| - 1];
      assert u[..|u| - 1] == s + t[..|t| - 1];
      assert AllSpace(t[..|t| - 1]) by {
        forall k | 0 <= k < |t| - 1 ensures IsSpace(t[k]) { }
      }
      StripRightSpaceTail(s, t[..|t| - 1]);
    }
  }

  /** Whitespace appended to a string does not change what `strip()` gives:
      the trailing newline a Tk text widget adds to its contents is harmless. */
  lemma StripSpaceTail(s: string, t: string)
    requires AllSpace(t)
    ensures Strip(s + t) == Strip(s)
  {
    StripLeftSpaceTail(s, t);
    if AllSpace(s) {
      StripEmptyIff(s);
    } else {
      StripRightSpaceTail(StripLeft(s), t);
    }
  }

  // ---------------------------------------------------------------------------
  // join and split

  /** `sep.join(parts)` for a one-character separator. */
  function Join(parts: seq<string>, sep: char): string {
    if |parts| == 0 then ""
    else if |parts| == 1 then parts[0]
    else parts[0] + [sep] + Join(parts[1..], sep)
  }

  /** Every part followed by the separator: `"".join(p + sep for p in parts)`. */
  function Terminated(parts: seq<string>, sep: char): string {
    if parts == [] then "" else parts[0] + [sep] + Terminated(parts[1..], sep)
  }

  /** Index of the first occurrence of `c` in `s`. */
  function IndexOf(s: string, c: char): (i: nat)
    requires c in s
    ensures i < |s| && s[i] == c && c !in s[..i]
  {
    if s[0] == c then 0
    else
      var j := IndexOf(s[1..], c);
      assert s[..j + 1] == [s[0]] + s[1..][..j];
      j + 1
  }

  /** `s.split(sep)` for a one-character separator: never an empty list. */
  function Split(s: string, sep: char): (r: seq<string>)
    ensures |r| >= 1
    decreases |s|
  {
    if sep !in s then [s]
    else
      var i := IndexOf(s, sep);
      [s[..i]] + Split(s[i + 1..], sep)
  }

  predicate Free(parts: seq<string>, sep: char) {
    forall k :: 0 <= k < |parts| ==> sep !in parts[k]
  }

  lemma SplitHead(p: string, sep: char, rest: string)
    requires sep !in p
    ensures Split(p + [sep] + rest, sep) == [p] + Split(rest, sep)
  {
    var s := p + [sep] + rest;
    assert s[|p|] == sep;
    var i := IndexOf(s, sep);
    assert s[..i] == p;
    assert s[i + 1..] == rest;
  }

  /** Splitting a join gives the parts back when no part holds the separator. */
  lemma {:induction false} SplitJoin(parts: seq<string>, sep: char)
    requires |parts| >= 1 && Free(parts, sep)
    ensures Split(Join(parts, sep), sep) == parts
  {
    if |parts| > 1 {
      var rest := Join(parts[1..], sep);
      assert Join(parts, sep) == parts[0] + [sep] + rest;
      assert Free(parts[1..], sep) by {
        forall k | 0 <= k < |parts| - 1 ensures sep !in parts[1..][k] {
          assert parts[1..][k] == parts[k + 1];
        }
      }
      SplitJoin(parts[1..], sep);
      SplitHead(parts[0], sep, rest);
    }
  }

  /** Joining a split gives the string back. */
  lemma {:induction false} JoinSplit(s: string, sep: char)
    ensures Join(Split(s, sep), sep) == s
    decreases |s|
  {
    if sep in s {
      var i := IndexOf(s, sep);
      JoinSplit(s[i + 1..], sep);
      var r := Split(s, sep);
      assert r[1..] == Split(s[i + 1..], sep);
      assert s == s[..i] + [sep] + s[i + 1..];
    }
  }

  /** Separator-terminated text is the join of the parts followed by one empty part. */
  lemma {:induction false} TerminatedIsJoin(parts: seq<string>, sep: char)
    ensures Terminated(parts, sep) == Join(parts + [""], sep)
  {
    if parts != [] {
      TerminatedIsJoin(parts[1..], sep);
      assert (parts + [""])[1..] == parts[1..] + [""];
    }
  }

  lemma {:induction false} TerminatedAppend(a: seq<string>, b: seq<string>, sep: char)
    ensures Terminated(a + b, sep) == Terminated(a, sep) + Terminated(b, sep)
  {
    if a == [] {
      assert a + b == b;
    } else {
      TerminatedAppend(a[1..], b, sep);
      assert (a + b)[1..] == a[1..] + b;
    }
  }

  /** Splitting terminated text gives the parts and a final empty string. */
  lemma SplitTerminated(parts: seq<string>, sep: char)
    requires Free(parts, sep)
    ensures Split(Terminated(parts, sep), sep) == parts + [""]
  {
    TerminatedIsJoin(parts, sep);
    SplitJoin(parts + [""], sep);
  }

  // ---------------------------------------------------------------------------
  // str(n) for a natural number

  predicate IsDigit(c: char) {
    '0' <= c <= '9'
  }

  predicate AllDigits(s: string) {
    forall k :: 0 <= k < |s| ==> IsDigit(s[k])
  }

  function DigitChar(d: nat): (c: char)
    requires d < 10
    ensures IsDigit(c) && c as int - '0' as int == d
  {
    ('0' as int + d) as char
  }

  /** `str(n)`: decimal digits, most significant first, no leading zeros. */
  function Decimal(n: nat): (r: string)
    ensures r != [] && AllDigits(r)
    ensures |r| > 1 ==> r[0] != '0'
  {
    if n < 10 then [DigitChar(n)] else Decimal(n / 10) + [DigitChar(n % 10)]
  }

  /** `int(s)` for a string of decimal digits. */
  function ParseDecimal(s: string): nat
    requires AllDigits(s)
  {
    if s == [] then 0
    else ParseDecimal(s[..|s| - 1]) * 10 + (s[|s| - 1] as int - '0' as int)
  }

  /** Reading back the digits of `str(n)` gives `n`. */
  lemma {:induction false} ParseDecimalOfDecimal(n: nat)
    ensures ParseDecimal(Decimal(n)) == n
  {
    if n >= 10 {
      ParseDecimalOfDecimal(n / 10);
      var d := Decimal(n);
      assert d[..|d| - 1] == Decimal(n / 10);
    }
  }

  /** The maximal run of digits at the start of `s`. */
  function LeadingDigits(s: string): (r: string)
    ensures AllDigits(r)
  {
    if s != [] && IsDigit(s[0]) then [s[0]] + LeadingDigits(s[1..]) else []
  }

  lemma {:induction false} LeadingDigitsOf(d: string, rest: string)
    requires AllDigits(d)
    requires rest == [] || !IsDigit(rest[0])
    ensures LeadingDigits(d + rest) == d
  {
    if d == [] {
      assert d + rest == rest;
    } else {
      assert (d + rest)[0] == d[0];
      assert (d + rest)[1..] == d[1..] + rest;
      LeadingDigitsOf(d[1..], rest);
    }
  }

  predicate StartsWith(s: string, prefix: string) {
    |prefix| <= |s| && s[..|prefix|] == prefix
  }

  /** The quote `repr(s)` puts around a string: a double quote when `s`
      holds a single quote and no double quote, a single quote otherwise. */
  function ReprQuote(s: string): char {
    if '\'' in s && '"' !in s then '"' else '\''
  }

  function HexDigit(n: nat): char
    requires n < 16
  {
    if n < 10 then ('0' as int + n) as char else ('a' as int + n - 10) as char
  }

  /** The characters up to U+00FF that `repr` writes as `\xhh`: the control
      characters other than tab, newline and carriage return, and the
      unprintable Latin-1 ones (U+007F to U+00A0 and the soft hyphen). */
  predicate HexEscaped(c: char) {
    var n := c as int;
    (n < 0x20 && c != '\t' && c != '\n' && c != '\r') || (0x7F <= n <= 0xA0) || n == 0xAD
  }

  /** The text `repr` writes for the character `c` inside quotes `q`. */
  function EscapeChar(c: char, q: char): string {
    if c == '\\' then "\\\\"
    else if c == q then ['\\', q]
    else if c == '\t' then "\\t"
    else if c == '\n' then "\\n"
    else if c == '\r' then "\\r"
    else if HexEscaped(c) then ['\\', 'x', HexDigit(c as int / 16), HexDigit(c as int % 16)]
    else [c]
  }

  /** A character `repr` writes as itself inside quotes `q`. */
  predicate Verbatim(c: char, q: char) {
    c != '\\' && c != q && c != '\t' && c != '\n' && c != '\r' && !HexEscaped(c)
  }

  function EscapeAll(s: string, q: char): string {
    if s == [] then [] else EscapeChar(s[0], q) + EscapeAll(s[1..], q)
  }

  /** `repr(s)`. */
  function Repr(s: string): (r: string)
    ensures |r| >= 2 && r[0] == ReprQuote(s) && r[|r| - 1] == ReprQuote(s)
  {
    [ReprQuote(s)] + EscapeAll(s, ReprQuote(s)) + [ReprQuote(s)]
  }

  /** Every character is written as at least itself, and an escaped one
      as more: the escaped text is never shorter than the original, and
      is exactly as long only when no character needed an escape. */
  lemma {:induction false} EscapeAllLength(s: string, q: char)
    ensures |EscapeAll(s, q)| >= |s|
    ensures |EscapeAll(s, q)| == |s| <==> forall k :: 0 <= k < |s| ==> Verbatim(s[k], q)
  {
    if s != [] {
      EscapeAllLength(s[1..], q);
      assert forall k :: 1 <= k < |s| ==> s[k] == s[1..][k - 1];
      if !Verbatim(s[0], q) {
        assert |EscapeChar(s[0], q)| >= 2;
      }
    }
  }

  /** `repr(s)` is `s` between its quotes exactly when no character of `s`
      needs an escape. */
  lemma ReprVerbatimIff(s: string)
    ensures Repr(s) == [ReprQuote(s)] + s + [ReprQuote(s)] <==>
      forall k :: 0 <= k < |s| ==> Verbatim(s[k], ReprQuote(s))
  {
    var q := ReprQuote(s);
    EscapeAllLength(s, q);
    if forall k :: 0 <= k < |s| ==> Verbatim(s[k], q) {
      EscapeAllVerbatim(s, q);
    }
  }

  lemma {:induction false} EscapeAllVerbatim(s: string, q: char)
    requires forall k :: 0 <= k < |s| ==> Verbatim(s[k], q)
    ensures EscapeAll(s, q) == s
  {
    if s != [] {
      EscapeAllVerbatim(s[1..], q);
    }
  }

  /** A string with a single quote and no double quote is written between
      double quotes, its single quotes unescaped; one without a single
      quote is written between single quotes. */
  lemma ReprQuoteChoice(s: string)
    requires forall k :: 0 <= k < |s| ==> s[k] != '\\' && !HexEscaped(s[k]) && s[k] != '\t' && s[k] != '\n' && s[k] != '\r'
    ensures '\'' in s && '"' !in s ==> Repr(s) == ['"'] + s + ['"']
    ensures '\'' !in s ==> Repr(s) == ['\''] + s + ['\'']
  {
    ReprVerbatimIff(s);
  }
}
