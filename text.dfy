/** The Python string operations the build helpers rely on: join, split, strip, lower and the
    decimal and hexadecimal renderings of integers, each with the fact that lets it be read back. */
module Text {

  // ---------------------------------------------------------------- join and split

  /** `sep.join(parts)`. */
  function Join(parts: seq<string>, sep: string): (r: string)
    ensures |parts| == 1 ==> r == parts[0]
  {
    if |parts| == 0 then ""
    else if |parts| == 1 then parts[0]
    else parts[0] + sep + Join(parts[1..], sep)
  }

  /** `s.split(c)` for a one-character separator: never empty, "" splits to [""]. */
  function Split(s: string, c: char): (r: seq<string>)
    ensures |r| >= 1
    ensures forall p <- r :: c !in p
    decreases |s|
  {
    if |s| == 0 then [""]
    else
      var rest := Split(s[1..], c);
      if s[0] == c then [""] + rest else [[s[0]] + rest[0]] + rest[1..]
  }

  lemma {:induction false} SplitWithoutSeparator(s: string, c: char)
    requires c !in s
    ensures Split(s, c) == [s]
    decreases |s|
  {
    if |s| > 0 {
      SplitWithoutSeparator(s[1..], c);
      assert [s[0]] + s[1..] == s;
    }
  }

  lemma {:induction false} SplitAtFirstSeparator(a: string, b: string, c: char)
    requires c !in a
    ensures Split(a + [c] + b, c) == [a] + Split(b, c)
    decreases |a|
  {
    var s := a + [c] + b;
    if |a| == 0 {
      assert s[1..] == b;
    } else {
      assert s[1..] == a[1..] + [c] + b;
      SplitAtFirstSeparator(a[1..], b, c);
      assert [a[0]] + a[1..] == a;
    }
  }

  /** Splitting a joined list on its separator gives the list back, when no part holds the separator. */
  lemma {:induction false} SplitJoin(parts: seq<string>, c: char)
    requires |parts| >= 1
    requires forall p <- parts :: c !in p
    ensures Split(Join(parts, [c]), c) == parts
    decreases |parts|
  {
    if |parts| == 1 {
      SplitWithoutSeparator(parts[0], c);
    } else {
      SplitJoin(parts[1..], c);
      SplitAtFirstSeparator(parts[0], Join(parts[1..], [c]), c);
      assert [parts[0]] + parts[1..] == parts;
    }
  }

  /** A character that is in no part and not in the separator is not in the joined text. */
  lemma {:induction false} JoinAvoids(parts: seq<string>, sep: string, c: char)
    requires c !in sep
    requires forall p <- parts :: c !in p
    ensures c !in Join(parts, sep)
    decreases |parts|
  {
    if |parts| > 1 {
      JoinAvoids(parts[1..], sep, c);
    }
  }

  // ---------------------------------------------------------------- strip and lower

  /** `str.isspace()` on the ASCII range: tab, newline, vertical tab, form feed, carriage return,
      the four information separators and the space. */
  predicate IsSpace(ch: char)
  {
    (9 <= ch as int <= 13) || (28 <= ch as int <= 32)
  }

  function StripLeft(s: string): (r: string)
    ensures |r| <= |s| && r == s[|s| - |r|..]
    ensures r == [] || !IsSpace(r[0])
  {
    if |s| > 0 && IsSpace(s[0]) then StripLeft(s[1..]) else s
  }

  function StripRight(s: string): (r: string)
    ensures |r| <= |s| && r == s[..|r|]
    ensures r == [] || !IsSpace(r[|r| - 1])
  {
    if |s| > 0 && IsSpace(s[|s| - 1]) then StripRight(s[..|s| - 1]) else s
  }

  /** `s.strip()`: the slice of `s` left once leading and trailing white space is gone. */
  function Strip(s: string): (r: string)
    ensures forall ch <- r :: ch in s
    ensures r == [] || (!IsSpace(r[0]) && !IsSpace(r[|r| - 1]))
  {
    var l := StripLeft(s);
    var r := StripRight(l);
    assert forall k :: 0 <= k < |r| ==> r[k] == s[|s| - |l| + k];
    r
  }

  function LowerChar(ch: char): char
  {
    if 'A' <= ch <= 'Z' then (ch as int + 32) as char else ch
  }

  /** `s.lower()` on ASCII letters. */
  function Lower(s: string): (r: string)
    ensures |r| == |s|
    ensures forall i :: 0 <= i < |s| ==> r[i] == LowerChar(s[i])
  {
    seq(|s|, i requires 0 <= i < |s| => LowerChar(s[i]))
  }

  // ---------------------------------------------------------------- numbers

  predicate IsDigit(ch: char) { '0' <= ch <= '9' }

  function DigitChar(d: nat): (ch: char)
    requires d < 10
    ensures IsDigit(ch) && ch as int - '0' as int == d
  {
    ('0' as int + d) as char
  }

  /** `str(n)` for a non-negative integer. */
  function NatToString(n: nat): (r: string)
    ensures |r| >= 1
    ensures forall ch <- r :: IsDigit(ch)
  {
    if n < 10 then [DigitChar(n)] else NatToString(n / 10) + [DigitChar(n % 10)]
  }

  /** `str(i)` for any integer. */
  function IntToString(i: int): (r: string)
    ensures i >= 0 ==> r == NatToString(i)
    ensures i < 0 ==> r == "-" + NatToString(-i)
  {
    if i < 0 then "-" + NatToString(-i) else NatToString(i)
  }

  /** The value of a string of decimal digits (`int(s)` on such a string). */
  function ParseDecimal(s: string): nat
    requires forall ch <- s :: IsDigit(ch)
  {
    if s == [] then 0 else ParseDecimal(s[..|s| - 1]) * 10 + DigitValue(s[|s| - 1])
  }

  function DigitValue(ch: char): (d: nat)
    requires IsDigit(ch)
    ensures d < 10
  {
    ch as int - '0' as int
  }

  lemma {:induction false} DecimalRoundTrip(n: nat)
    ensures ParseDecimal(NatToString(n)) == n
  {
    if n >= 10 {
      DecimalRoundTrip(n / 10);
      var s := NatToString(n);
      assert s[..|s| - 1] == NatToString(n / 10);
    }
  }

  const HexAlphabet := "0123456789abcdef"

  predicate IsHexDigit(ch: char) { ch in HexAlphabet }

  function HexValue(ch: char): (v: nat)
    requires IsHexDigit(ch)
    ensures v < 16 && HexAlphabet[v] == ch
  {
    if '0' <= ch <= '9' then ch as int - '0' as int else ch as int - 'a' as int + 10
  }

  /** The lower-case hexadecimal digits of `n`, without leading zeros (`f"{n:x}"`). */
  function HexDigits(n: nat): (r: string)
    ensures |r| >= 1
    ensures forall ch <- r :: IsHexDigit(ch)
  {
    if n < 16 then [HexAlphabet[n]] else HexDigits(n / 16) + [HexAlphabet[n % 16]]
  }

  function Zeros(k: nat): (r: string)
    ensures |r| == k && forall ch <- r :: ch == '0'
  {
    seq(k, _ => '0')
  }

  /** `f"{n:0<width>x}"`: lower-case hexadecimal, zero-padded on the left to at least `width` digits. */
  function Hex(n: nat, width: nat): (r: string)
    ensures |r| >= width && |r| >= 1
    ensures forall ch <- r :: IsHexDigit(ch)
  {
    var digits := HexDigits(n);
    if |digits| < width then Zeros(width - |digits|) + digits else digits
  }

  /** The value of a string of hexadecimal digits (`int(s, 16)` on such a string). */
  function ParseHex(s: string): nat
    requires forall ch <- s :: IsHexDigit(ch)
  {
    if s == [] then 0 else ParseHex(s[..|s| - 1]) * 16 + HexValue(s[|s| - 1])
  }

  lemma {:induction false} HexDigitsRoundTrip(n: nat)
    ensures ParseHex(HexDigits(n)) == n
  {
    var s := HexDigits(n);
    HexValueOfDigit(n % 16);
    if n >= 16 {
      HexDigitsRoundTrip(n / 16);
      assert s[..|s| - 1] == HexDigits(n / 16);
    } else {
      assert s[..0] == [];
    }
  }

  /** Each digit of the alphabet reads back as its position. */
  lemma HexValueOfDigit(d: nat)
    requires d < 16
    ensures HexValue(HexAlphabet[d]) == d
  {
  }

  lemma {:induction false} LeadingZerosIgnored(k: nat, s: string)
    requires forall ch <- s :: IsHexDigit(ch)
    ensures ParseHex(Zeros(k) + s) == ParseHex(s)
    decreases |s|
  {
    var z := Zeros(k);
    if s == [] {
      assert z + s == z;
      ZerosAreZero(k);
    } else {
      assert (z + s)[..|z + s| - 1] == z + s[..|s| - 1];
      LeadingZerosIgnored(k, s[..|s| - 1]);
    }
  }

  lemma {:induction false} ZerosAreZero(k: nat)
    ensures ParseHex(Zeros(k)) == 0
  {
    if k > 0 {
      assert Zeros(k)[..k - 1] == Zeros(k - 1);
      ZerosAreZero(k - 1);
    }
  }

  /** Reading a padded hexadecimal rendering back gives the number. */
  lemma HexRoundTrip(n: nat, width: nat)
    ensures ParseHex(Hex(n, width)) == n
  {
    HexDigitsRoundTrip(n);
    var digits := HexDigits(n);
    if |digits| < width {
      LeadingZerosIgnored(width - |digits|, digits);
    }
  }
}
