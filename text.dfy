/**
 * Text and bytes as the Go standard library treats them: the UTF-8 encoding
 * of a string, `%d` formatting of an integer, and `strings.TrimSpace`.
 */
module Text {
  import opened Wrappers

  newtype byte = b: int | 0 <= b < 256
  type Bytes = seq<byte>

  // ---------------------------------------------------------------- UTF-8

  /** The UTF-8 encoding of one Unicode scalar value. */
  function Utf8Char(c: char): (r: Bytes)
    ensures 1 <= |r| <= 4
    ensures c as int < 0x80 <==> |r| == 1
    ensures c as int < 0x80 ==> r == [c as int as byte]
  {
    var n := c as int;
    if n < 0x80 then [n as byte]
    else if n < 0x800 then [(0xC0 + n / 64) as byte, (0x80 + n % 64) as byte]
    else if n < 0x10000 then
      [(0xE0 + n / 4096) as byte, (0x80 + (n / 64) % 64) as byte, (0x80 + n % 64) as byte]
    else
      [(0xF0 + n / 262144) as byte, (0x80 + (n / 4096) % 64) as byte,
       (0x80 + (n / 64) % 64) as byte, (0x80 + n % 64) as byte]
  }

  /** The bytes of a Go string holding the text `s`. */
  function Utf8(s: string): (r: Bytes)
    ensures |r| >= |s|
  {
    if s == [] then [] else Utf8Char(s[0]) + Utf8(s[1..])
  }

  predicate IsAscii(s: string) {
    forall i :: 0 <= i < |s| ==> s[i] as int < 0x80
  }

  lemma {:induction false} Utf8Append(a: string, b: string)
    ensures Utf8(a + b) == Utf8(a) + Utf8(b)
  {
    if a == [] {
      assert a + b == b;
    } else {
      assert (a + b)[0] == a[0];
      assert (a + b)[1..] == a[1..] + b;
      Utf8Append(a[1..], b);
    }
  }

  /** For ASCII text, the bytes are the characters themselves, one each. */
  lemma {:induction false} Utf8Ascii(s: string)
    requires IsAscii(s)
    ensures |Utf8(s)| == |s|
    ensures forall i :: 0 <= i < |s| ==> Utf8(s)[i] == s[i] as int as byte
  {
    if s != [] {
      Utf8Ascii(s[1..]);
    }
  }

  /** The low byte of each character: the bytes of text that is ASCII. */
  function Ascii(s: string): (r: Bytes)
    ensures |r| == |s|
    ensures forall i :: 0 <= i < |s| ==> r[i] == (s[i] as int % 256) as byte
  {
    seq(|s|, i requires 0 <= i < |s| => (s[i] as int % 256) as byte)
  }

  lemma AsciiIsUtf8(s: string)
    requires IsAscii(s)
    ensures Ascii(s) == Utf8(s)
  {
    Utf8Ascii(s);
  }

  lemma AsciiAppend(a: string, b: string)
    ensures Ascii(a + b) == Ascii(a) + Ascii(b)
  {
  }

  lemma AsciiInjective(a: string, b: string)
    requires IsAscii(a) && IsAscii(b) && Ascii(a) == Ascii(b)
    ensures a == b
  {
    forall i | 0 <= i < |a|
      ensures a[i] == b[i]
    {
      assert Ascii(a)[i] == Ascii(b)[i];
    }
  }

  // ------------------------------------------------------- decimal numbers

  predicate IsDigit(c: char) {
    '0' <= c <= '9'
  }

  predicate AllDigits(s: string) {
    forall i :: 0 <= i < |s| ==> IsDigit(s[i])
  }

  function DigitChar(d: int): (c: char)
    requires 0 <= d < 10
    ensures IsDigit(c) && c as int - '0' as int == d
  {
    ('0' as int + d) as char
  }

  /** The decimal digits of a natural number, most significant first. */
  function Digits(n: nat): (r: string)
    ensures |r| >= 1 && AllDigits(r)
    decreases n
  {
    if n < 10 then [DigitChar(n)] else Digits(n / 10) + [DigitChar(n % 10)]
  }

  /** `fmt.Sprintf("%d", n)`. */
  function Decimal(n: int): (r: string)
    ensures |r| >= 1
    ensures n >= 0 <==> IsDigit(r[0])
    ensures n < 0 <==> r[0] == '-'
    ensures forall i :: 0 <= i < |r| ==> IsDigit(r[i]) || r[i] == '-'
  {
    if n < 0 then "-" + Digits(-n) else Digits(n)
  }

  /** The value of a string of decimal digits. */
  function DigitsValue(s: string): nat
    requires AllDigits(s)
  {
    if s == [] then 0 else DigitsValue(s[..|s| - 1]) * 10 + (s[|s| - 1] as int - '0' as int)
  }

  /** Reads back an optionally signed decimal integer. */
  function ParseDecimal(s: string): Option<int> {
    if |s| >= 2 && s[0] == '-' && AllDigits(s[1..]) then
      var magnitude: int := DigitsValue(s[1..]);
      Some(-magnitude)
    else if |s| >= 1 && AllDigits(s) then Some(DigitsValue(s))
    else None
  }

  lemma {:induction false} DigitsValueOfDigits(n: nat)
    ensures DigitsValue(Digits(n)) == n
    decreases n
  {
    var r := Digits(n);
    if n >= 10 {
      DigitsValueOfDigits(n / 10);
      assert r[..|r| - 1] == Digits(n / 10);
    }
  }

  /** The text `%d` produces determines the number. */
  lemma DecimalRoundTrip(n: int)
    ensures ParseDecimal(Decimal(n)) == Some(n)
  {
    if n < 0 {
      DigitsValueOfDigits(-n);
      assert Decimal(n)[1..] == Digits(-n);
    } else {
      DigitsValueOfDigits(n);
    }
  }

  lemma DecimalInjective(m: int, n: int)
    requires Decimal(m) == Decimal(n)
    ensures m == n
  {
    DecimalRoundTrip(m);
    DecimalRoundTrip(n);
  }

  // ------------------------------------------------------------ white space

  /** Go's `unicode.IsSpace`. */
  predicate IsSpace(c: char) {
    var n := c as int;
    (0x09 <= n <= 0x0D) || n == 0x20 || n == 0x85 || n == 0xA0 || n == 0x1680
    || (0x2000 <= n <= 0x200A) || n == 0x2028 || n == 0x2029 || n == 0x202F
    || n == 0x205F || n == 0x3000
  }

  predicate AllSpace(s: string) {
    forall i :: 0 <= i < |s| ==> IsSpace(s[i])
  }

  /** `s` with its leading white space removed. */
  function TrimLeft(s: string): (r: string)
    ensures |r| <= |s| && r == s[|s| - |r|..]
    ensures AllSpace(s[..|s| - |r|])
    ensures r == [] || !IsSpace(r[0])
    decreases |s|
  {
    if |s| > 0 && IsSpace(s[0]) then
      var r := TrimLeft(s[1..]);
      assert s[1..][|s| - 1 - |r|..] == s[|s| - |r|..];
      assert s[..|s| - |r|] == [s[0]] + s[1..][..|s| - 1 - |r|];
      r
    else
      s
  }

  /** `s` with its trailing white space removed. */
  function TrimRight(s: string): (r: string)
    ensures |r| <= |s| && r == s[..|r|]
    ensures AllSpace(s[|r|..])
    ensures r == [] || !IsSpace(r[|r| - 1])
    decreases |s|
  {
    if |s| > 0 && IsSpace(s[|s| - 1]) then TrimRight(s[..|s| - 1]) else s
  }

  /** `strings.TrimSpace`. */
  function TrimSpace(s: string): (r: string)
    ensures r == [] <==> AllSpace(s)
    ensures r == [] || (!IsSpace(r[0]) && !IsSpace(r[|r| - 1]))
  {
    var l := TrimLeft(s);
    var r := TrimRight(l);
    assert r == [] ==> AllSpace(s) by {
      if r == [] {
        assert l == [];
      }
    }
    r
  }

  /** `TrimSpace` removes a white-space prefix and a white-space suffix, and nothing else. */
  lemma TrimSpaceOnlyEdges(s: string) returns (lead: string, trail: string)
    ensures s == lead + TrimSpace(s) + trail
    ensures AllSpace(lead) && AllSpace(trail)
  {
    var l := TrimLeft(s);
    var r := TrimRight(l);
    assert TrimSpace(s) == r;
    lead, trail := s[..|s| - |l|], l[|r|..];
    SplitAround(s, l, r);
  }

  /** `s` is what precedes its suffix `l`, then `l`'s prefix `r`, then the rest of `l`. */
  lemma SplitAround<T>(s: seq<T>, l: seq<T>, r: seq<T>)
    requires |l| <= |s| && l == s[|s| - |l|..] && |r| <= |l| && r == l[..|r|]
    ensures s == s[..|s| - |l|] + r + l[|r|..]
  {
    assert s == s[..|s| - |l|] + s[|s| - |l|..];
    assert l == l[..|r|] + l[|r|..];
  }

  /** The trimmed text is a contiguous part of the original. */
  lemma TrimSpaceInfix(s: string)
    ensures IsInfix(TrimSpace(s), s)
  {
    var lead, trail := TrimSpaceOnlyEdges(s);
    InfixOfMiddle(lead, TrimSpace(s), trail);
  }

  lemma TrimLeftClean(s: string)
    requires s == [] || !IsSpace(s[0])
    ensures TrimLeft(s) == s
  {
  }

  lemma TrimRightClean(s: string)
    requires s == [] || !IsSpace(s[|s| - 1])
    ensures TrimRight(s) == s
  {
  }

  /** Trimming twice is trimming once. */
  lemma TrimSpaceIdempotent(s: string)
    ensures TrimSpace(TrimSpace(s)) == TrimSpace(s)
  {
    var t := TrimSpace(s);
    TrimLeftClean(t);
    TrimRightClean(t);
  }

  lemma {:induction false} TrimRightDropsSpace(s: string, c: char)
    requires IsSpace(c)
    ensures TrimRight(s + [c]) == TrimRight(s)
  {
    assert (s + [c])[..|s + [c]| - 1] == s;
  }

  lemma {:induction false} TrimLeftAppend(s: string, c: char)
    requires !AllSpace(s)
    ensures TrimLeft(s + [c]) == TrimLeft(s) + [c]
    decreases |s|
  {
    assert (s + [c])[0] == s[0];
    if IsSpace(s[0]) {
      assert (s + [c])[1..] == s[1..] + [c];
      assert !AllSpace(s[1..]) by {
        var k :| 0 <= k < |s| && !IsSpace(s[k]);
        assert s[1..][k - 1] == s[k];
      }
      TrimLeftAppend(s[1..], c);
    }
  }

  /** A white-space character at the end makes no difference: a key file's trailing newline is dropped. */
  lemma TrimSpaceDropsTrailingSpace(s: string, c: char)
    requires IsSpace(c)
    ensures TrimSpace(s + [c]) == TrimSpace(s)
  {
    if AllSpace(s) {
      assert AllSpace(s + [c]);
    } else {
      TrimLeftAppend(s, c);
      TrimRightDropsSpace(TrimLeft(s), c);
    }
  }

  // --------------------------------------------------------- sequence facts

  /** `p` occurs somewhere in `s`: Go's `strings.Contains`. */
  predicate IsInfix<T(==)>(p: seq<T>, s: seq<T>) {
    exists i, j :: 0 <= i <= j <= |s| && s[i..j] == p
  }

  predicate HasPrefix<T(==)>(s: seq<T>, p: seq<T>) {
    |p| <= |s| && s[..|p|] == p
  }

  lemma InfixOfMiddle<T>(a: seq<T>, b: seq<T>, c: seq<T>)
    ensures IsInfix(b, a + b + c)
  {
    assert (a + b + c)[|a|..|a| + |b|] == b;
  }

  lemma ThreeInfixes<T>(a: seq<T>, x: seq<T>, b: seq<T>, y: seq<T>, c: seq<T>, z: seq<T>, d: seq<T>)
    ensures IsInfix(x, a + x + b + y + c + z + d)
    ensures IsInfix(y, a + x + b + y + c + z + d)
    ensures IsInfix(z, a + x + b + y + c + z + d)
  {
    var s := a + x + b + y + c + z + d;
    InfixOfMiddle(a, x, b + y + c + z + d);
    assert s == a + x + (b + y + c + z + d);
    InfixOfMiddle(a + x + b, y, c + z + d);
    assert s == (a + x + b) + y + (c + z + d);
    InfixOfMiddle(a + x + b + y + c, z, d);
  }

  /** Past a prefix, the first occurrence of `c[0]` is right after the part `d` that lacks it. */
  lemma FirstSeparator<T>(p: seq<T>, d: seq<T>, c: seq<T>, b: seq<T>)
    requires |c| > 0
    requires forall i :: 0 <= i < |d| ==> d[i] != c[0]
    ensures (p + d + c + b)[|p| + |d|] == c[0]
    ensures forall i :: |p| <= i < |p| + |d| ==> (p + d + c + b)[i] != c[0]
  {
    var m := p + d + c + b;
    forall i | |p| <= i < |p| + |d|
      ensures m[i] != c[0]
    {
      assert m[i] == d[i - |p|];
    }
  }

  /**
   * When a separator that cannot occur in the middle parts follows them, the
   * whole determines both the middle part and the tail.
   */
  lemma SeparatedInjective<T>(p: seq<T>, d1: seq<T>, d2: seq<T>, c: seq<T>, b1: seq<T>, b2: seq<T>)
    requires |c| > 0
    requires forall i :: 0 <= i < |d1| ==> d1[i] != c[0]
    requires forall i :: 0 <= i < |d2| ==> d2[i] != c[0]
    requires p + d1 + c + b1 == p + d2 + c + b2
    ensures d1 == d2 && b1 == b2
  {
    var m := p + d1 + c + b1;
    FirstSeparator(p, d1, c, b1);
    FirstSeparator(p, d2, c, b2);
    assert |d1| == |d2|;
    assert d1 == m[|p|..|p| + |d1|] == d2;
    assert b1 == m[|p| + |d1| + |c|..] == b2;
  }
}
