/**
 * The few Python string operations the storage manager relies on, over
 * Dafny strings (seq<char>): str.isspace / str.strip, str.splitlines,
 * str.split(":", 1)[0], and integer formatting with str(n), "{:05d}" and
 * "{:08X}".  Each is given with the contract that characterises it, and the
 * formatting functions come with the value they denote, so that a formatted
 * number can be read back.
 */
module Text {

  /** Python's str.isspace() for a single character. */
  predicate IsSpace(c: char) {
    || c == ' '
    || ('\t' <= c <= '\r')              // \t \n \v \f \r
    || ('\U{1C}' <= c <= '\U{1F}')      // file, group, record and unit separators
    || c == '\U{85}' || c == '\U{A0}' || c == '\U{1680}'
    || ('\U{2000}' <= c <= '\U{200A}')
    || c == '\U{2028}' || c == '\U{2029}' || c == '\U{202F}' || c == '\U{205F}' || c == '\U{3000}'
  }

  /** The characters str.splitlines() treats as line boundaries. */
  predicate IsLineBreak(c: char) {
    || ('\n' <= c <= '\r')              // \n \v \f \r
    || ('\U{1C}' <= c <= '\U{1E}')
    || c == '\U{85}' || c == '\U{2028}' || c == '\U{2029}'
  }

  /** Number of whitespace characters str.strip() removes from the front of s. */
  function Leading(s: string): (n: nat)
    ensures n <= |s|
    ensures forall k :: 0 <= k < n ==> IsSpace(s[k])
    ensures n < |s| ==> !IsSpace(s[n])
  {
    if |s| > 0 && IsSpace(s[0]) then 1 + Leading(s[1..]) else 0
  }

  /** Number of whitespace characters str.strip() removes from the end of s. */
  function Trailing(s: string): (n: nat)
    ensures n <= |s|
    ensures forall k :: |s| - n <= k < |s| ==> IsSpace(s[k])
    ensures n < |s| ==> !IsSpace(s[|s| - 1 - n])
  {
    if |s| > 0 && IsSpace(s[|s| - 1]) then 1 + Trailing(s[..|s| - 1]) else 0
  }

  /**
   * str.strip(): s without its surrounding whitespace.  The result is the
   * slice of s that starts at Leading(s), it neither starts nor ends with
   * whitespace, and every character of s outside it is whitespace.
   */
  function Strip(s: string): (r: string)
    ensures Leading(s) + |r| <= |s| && r == s[Leading(s)..Leading(s) + |r|]
    ensures r == [] || (!IsSpace(r[0]) && !IsSpace(r[|r| - 1]))
    ensures forall k :: 0 <= k < Leading(s) ==> IsSpace(s[k])
    ensures forall k :: Leading(s) + |r| <= k < |s| ==> IsSpace(s[k])
  {
    var n := Leading(s);
    var m := Trailing(s[n..]);
    StripFacts(s, n, m);
    s[n..|s| - m]
  }

  /** What is left between the leading and the trailing whitespace has none at either end. */
  lemma StripFacts(s: string, n: nat, m: nat)
    requires n == Leading(s) && m == Trailing(s[n..])
    ensures n + m <= |s|
    ensures var r := s[n..|s| - m]; r == [] || (!IsSpace(r[0]) && !IsSpace(r[|r| - 1]))
    ensures forall k :: |s| - m <= k < |s| ==> IsSpace(s[k])
  {
    var t := s[n..];
    forall k | |s| - m <= k < |s| ensures IsSpace(s[k]) {
      assert s[k] == t[k - n];
    }
    var r := s[n..|s| - m];
    if r != [] {
      assert r[0] == t[0];
      assert r[|r| - 1] == t[|t| - 1 - m];
    }
  }

  /** A string that has no surrounding whitespace is its own strip. */
  lemma StripKeeps(s: string)
    requires s == [] || (!IsSpace(s[0]) && !IsSpace(s[|s| - 1]))
    ensures Strip(s) == s
  {
  }

  /** Index of the first line boundary in s, or |s| when there is none. */
  /** The line break that ends the last line of a program's output is stripped with the surrounding whitespace. */
  lemma StripNewline(s: string)
    requires s != [] && !IsSpace(s[0]) && !IsSpace(s[|s| - 1])
    ensures Strip(s + "\n") == s
  {
    var u := s + "\n";
    assert Leading(u) == 0 by {
      assert u[0] == s[0];
    }
    assert u[0..] == u;
    assert u[..|u| - 1] == s;
    assert Trailing(u) == 1 + Trailing(s);
    assert Trailing(s) == 0;
  }

  function LineEnd(s: string): (i: nat)
    ensures i <= |s|
    ensures forall k :: 0 <= k < i ==> !IsLineBreak(s[k])
    ensures i < |s| ==> IsLineBreak(s[i])
  {
    if s == [] || IsLineBreak(s[0]) then 0 else 1 + LineEnd(s[1..])
  }

  /**
   * str.splitlines(): the lines of s without their terminators.  "\r\n"
   * is one terminator, and a terminator at the very end does not open an
   * empty last line.  No line contains a boundary character.
   */
  function SplitLines(s: string): (lines: seq<string>)
    ensures |lines| <= |s|
    ensures forall j, k :: 0 <= j < |lines| && 0 <= k < |lines[j]| ==> !IsLineBreak(lines[j][k])
    decreases |s|
  {
    if s == [] then []
    else
      var i := LineEnd(s);
      if i == |s| then [s]
      else
        var next := if s[i] == '\r' && i + 1 < |s| && s[i + 1] == '\n' then i + 2 else i + 1;
        [s[..i]] + SplitLines(s[next..])
  }

  /** The lines joined with "\n", as a tool prints them. */
  function JoinLines(lines: seq<string>): string {
    if |lines| == 0 then ""
    else if |lines| == 1 then lines[0]
    else lines[0] + "\n" + JoinLines(lines[1..])
  }

  /** A join starts with the first character of the first line and ends with the last character of the last. */
  lemma {:induction false} JoinLinesEnds(lines: seq<string>)
    requires |lines| > 0 && lines[0] != [] && lines[|lines| - 1] != []
    ensures var j := JoinLines(lines); |j| > 0 && j[0] == lines[0][0] && j[|j| - 1] == lines[|lines| - 1][|lines[|lines| - 1]| - 1]
  {
    if |lines| > 1 {
      JoinLinesLast(lines[1..]);
    }
  }

  lemma {:induction false} JoinLinesLast(lines: seq<string>)
    requires |lines| > 0 && lines[|lines| - 1] != []
    ensures var j := JoinLines(lines); |j| > 0 && j[|j| - 1] == lines[|lines| - 1][|lines[|lines| - 1]| - 1]
  {
    if |lines| > 1 {
      JoinLinesLast(lines[1..]);
    }
  }

  predicate NoLineBreak(s: string) {
    forall k :: 0 <= k < |s| ==> !IsLineBreak(s[k])
  }

  /**
   * splitlines undoes a join by "\n" of lines without boundaries, as long as
   * the last line is not empty (an empty last line is indistinguishable from a
   * trailing terminator).
   */
  lemma {:induction false} SplitJoin(lines: seq<string>)
    requires forall j :: 0 <= j < |lines| ==> NoLineBreak(lines[j])
    requires lines == [] || lines[|lines| - 1] != ""
    ensures SplitLines(JoinLines(lines)) == lines
  {
    if |lines| == 1 {
      var s := lines[0];
      assert NoLineBreak(s);
      assert LineEnd(s) == |s|;
    } else if |lines| > 1 {
      var l, rest := lines[0], JoinLines(lines[1..]);
      var s := l + "\n" + rest;
      assert NoLineBreak(l);
      assert s[|l|] == '\n';
      var i := LineEnd(s);
      assert i == |l|;
      assert s[..i] == l;
      assert s[i + 1..] == rest;
      SplitJoin(lines[1..]);
      assert [l] + lines[1..] == lines;
    }
  }

  /** str.split(":", 1)[0]: the part of s before its first ':' (all of s if none). */
  function BeforeColon(s: string): (r: string)
    ensures |r| <= |s| && r == s[..|r|]
    ensures ':' !in r
    ensures |r| < |s| ==> s[|r|] == ':'
  {
    if s == [] || s[0] == ':' then [] else [s[0]] + BeforeColon(s[1..])
  }

  /** A character missing from s is missing from every slice of it. */
  lemma SliceExcludes(s: string, i: nat, j: nat, c: char)
    requires i <= j <= |s| && c !in s
    ensures c !in s[i..j]
  {
  }

  // ---- integers as text ---------------------------------------------------

  /** Upper-case digit character for 0 <= d < 16, as Python's "X" format prints it. */
  function DigitChar(d: nat): char
    requires d < 16
  {
    if d < 10 then ('0' as int + d) as char else ('A' as int + d - 10) as char
  }

  /** The digit a character stands for ('0'-'9', 'A'-'F'); 0 for any other character. */
  function DigitValue(c: char): nat {
    if '0' <= c <= '9' then c as int - '0' as int
    else if 'A' <= c <= 'F' then c as int - 'A' as int + 10
    else 0
  }

  /** c is one of the first `base` digits "0123456789ABCDEF". */
  predicate IsDigit(c: char, base: nat) {
    ('0' <= c <= '9' && (c as int - '0' as int) < base) || ('A' <= c <= 'F' && (c as int - 'A' as int + 10) < base)
  }

  function Pow(b: nat, e: nat): nat {
    if e == 0 then 1 else b * Pow(b, e - 1)
  }

  /** The number a digit string stands for in the given base (most significant digit first). */
  function Value(s: string, base: nat): nat {
    if s == [] then 0 else Value(s[..|s| - 1], base) * base + DigitValue(s[|s| - 1])
  }

  /** The shortest digit string for n in the given base, as str(n) and "{:X}" print it. */
  function Digits(n: nat, base: nat): (s: string)
    requires 2 <= base <= 16
    ensures |s| >= 1
    ensures forall k :: 0 <= k < |s| ==> IsDigit(s[k], base)
    ensures n == 0 <==> s == "0"
    decreases n
  {
    if n < base then [DigitChar(n)]
    else
      DivStep(n, base);
      Digits(n / base, base) + [DigitChar(n % base)]
  }

  /** One step of positional notation: n splits into n / base and a last digit. */
  lemma DivStep(n: nat, base: nat)
    requires 2 <= base && base <= n
    ensures 0 < n / base < n && n % base < base && n == (n / base) * base + n % base
  {
    var q, r := n / base, n % base;
    assert n == q * base + r && 0 <= r < base;
    assert q != 0;
    MulMono(2, base, q);
  }

  /** Multiplying by a non-negative number keeps an inequality. */
  lemma MulMono(a: int, b: int, c: nat)
    requires a <= b
    ensures a * c <= b * c
  {
  }

  /** str(n) for a non-negative integer. */
  function Decimal(n: nat): string {
    Digits(n, 10)
  }

  function Zeros(k: nat): (z: string)
    ensures |z| == k && forall i :: 0 <= i < k ==> z[i] == '0'
  {
    seq(k, _ => '0')
  }

  /** Left-pad s with '0' to at least `width` characters, as the "0<width>" format does. */
  function ZeroPad(s: string, width: nat): (r: string)
    ensures |r| == if |s| >= width then |s| else width
    ensures r[|r| - |s|..] == s
    ensures forall i :: 0 <= i < |r| - |s| ==> r[i] == '0'
  {
    if |s| >= width then s else Zeros(width - |s|) + s
  }

  /** Reading back what Digits printed gives the number. */
  lemma {:induction false} DigitsValue(n: nat, base: nat)
    requires 2 <= base <= 16
    ensures Value(Digits(n, base), base) == n
    decreases n
  {
    var s := Digits(n, base);
    if n < base {
      assert s[..0] == [];
    } else {
      DivStep(n, base);
      DigitsValue(n / base, base);
      assert s[..|s| - 1] == Digits(n / base, base);
      assert DigitValue(s[|s| - 1]) == n % base;
    }
  }

  /** A leading '0' does not change the value of a digit string. */
  lemma {:induction false} LeadingZeroValue(s: string, base: nat)
    ensures Value(['0'] + s, base) == Value(s, base)
    decreases |s|
  {
    if s == [] {
      assert (['0'] + s)[..0] == [];
    } else {
      assert (['0'] + s)[..|s|] == ['0'] + s[..|s| - 1];
      LeadingZeroValue(s[..|s| - 1], base);
    }
  }

  /** Zero padding does not change the value of a digit string. */
  lemma {:induction false} ZeroPadValue(s: string, width: nat, base: nat)
    ensures Value(ZeroPad(s, width), base) == Value(s, base)
  {
    if |s| < width {
      var k := width - |s|;
      ZerosValue(k, s, base);
    }
  }

  lemma {:induction false} ZerosValue(k: nat, s: string, base: nat)
    ensures Value(Zeros(k) + s, base) == Value(s, base)
  {
    if k > 0 {
      assert Zeros(k) + s == ['0'] + (Zeros(k - 1) + s);
      LeadingZeroValue(Zeros(k - 1) + s, base);
      ZerosValue(k - 1, s, base);
    } else {
      assert Zeros(0) + s == s;
    }
  }

  /** A number below base^w, zero-padded to w digits: exactly w digits that read back as the number. */
  lemma PaddedDigits(n: nat, base: nat, w: nat)
    requires 2 <= base <= 16 && 1 <= w && n < Pow(base, w)
    ensures var z := ZeroPad(Digits(n, base), w);
      && |z| == w && (forall k :: 0 <= k < w ==> IsDigit(z[k], base)) && Value(z, base) == n
  {
    var d := Digits(n, base);
    DigitsLength(n, base, w);
    var z := ZeroPad(d, w);
    forall k | 0 <= k < w ensures IsDigit(z[k], base) {
      if k >= w - |d| {
        assert z[k] == d[k - (w - |d|)];
      }
    }
    ZeroPadValue(d, w, base);
    DigitsValue(n, base);
  }

  /** A number below base^w has at most w digits. */
  lemma {:induction false} DigitsLength(n: nat, base: nat, w: nat)
    requires 2 <= base <= 16 && 1 <= w
    requires n < Pow(base, w)
    ensures |Digits(n, base)| <= w
    decreases n
  {
    if n >= base {
      DivStep(n, base);
      var q := n / base;
      if w == 1 {
        assert false;
      } else {
        var p := Pow(base, w - 1);
        assert Pow(base, w) == base * p;
        if p <= q {
          MulMono(p, q, base);
          assert false;
        }
        DigitsLength(q, base, w - 1);
      }
    }
  }
}
