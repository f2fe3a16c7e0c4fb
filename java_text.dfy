/** The few pieces of the Java platform whose exact behaviour the decoders and
    validators depend on: String.split with a one-character separator,
    String.trim, String.replace, Boolean.parseBoolean, Long.parseLong /
    Integer.parseInt over ASCII digits, 64- and 32-bit wrap-around and the
    double-to-int narrowing cast. */
module JavaText {
  import opened Wrappers

  const LONG_MIN: int := -0x8000_0000_0000_0000
  const LONG_MAX: int := 0x7FFF_FFFF_FFFF_FFFF
  const INT_MIN: int := -0x8000_0000
  const INT_MAX: int := 0x7FFF_FFFF

  predicate IsLong(x: int) { LONG_MIN <= x <= LONG_MAX }
  predicate IsInt(x: int) { INT_MIN <= x <= INT_MAX }

  /** Two's-complement wrap-around of an unbounded integer into 64 bits. */
  function Wrap64(x: int): (r: int)
    ensures IsLong(r)
    ensures IsLong(x) ==> r == x
  {
    (x + 0x8000_0000_0000_0000) % 0x1_0000_0000_0000_0000 - 0x8000_0000_0000_0000
  }

  /** Two's-complement wrap-around of an unbounded integer into 32 bits. */
  function Wrap32(x: int): (r: int)
    ensures IsInt(r)
    ensures IsInt(x) ==> r == x
  {
    (x + 0x8000_0000) % 0x1_0000_0000 - 0x8000_0000
  }

  /** Java's `long` multiplication. */
  function MulLong(x: int, y: int): (r: int)
    ensures IsLong(r)
  {
    Wrap64(x * y)
  }

  /** Java's `(int)` cast of a finite double: truncation toward zero, then
      saturation at the bounds of `int`. */
  function DoubleToInt(x: real): (r: int)
    ensures IsInt(r)
    ensures 0.0 <= x ==> 0 <= r && r as real <= x
    ensures 0.0 <= x && x < INT_MAX as real ==> x < r as real + 1.0
    ensures x <= 0.0 ==> r <= 0
  {
    var t := if x >= 0.0 then x.Floor else -((-x).Floor);
    if t > INT_MAX then INT_MAX else if t < INT_MIN then INT_MIN else t
  }

  // ---------------------------------------------------------------------
  // Characters and digits

  predicate IsDigit(c: char) { '0' <= c <= '9' }
  predicate IsAsciiLetter(c: char) { 'A' <= c <= 'Z' || 'a' <= c <= 'z' }
  predicate AllDigits(s: string) { forall i :: 0 <= i < |s| ==> IsDigit(s[i]) }

  function DigitValue(c: char): (d: nat)
    requires IsDigit(c)
    ensures d < 10
  {
    (c as int) - ('0' as int)
  }

  function DigitChar(d: nat): (c: char)
    requires d < 10
    ensures IsDigit(c) && DigitValue(c) == d
  {
    (('0' as int) + d) as char
  }

  /** The value of a string of decimal digits, most significant first. */
  function DigitsValue(s: string): nat
    requires AllDigits(s)
  {
    if s == [] then 0 else 10 * DigitsValue(s[..|s| - 1]) + DigitValue(s[|s| - 1])
  }

  /** Long.parseLong / Integer.parseInt: an optional sign followed by at least
      one digit, whose value lies in [lo, hi]; anything else is a
      NumberFormatException, here `None`. */
  function ParseInteger(s: string, lo: int, hi: int): (r: Option<int>)
    ensures r.Some? ==> lo <= r.value <= hi
    ensures r.Some? ==> |s| >= 1 && (s[0] == '-' || s[0] == '+' || IsDigit(s[0]))
  {
    if |s| == 0 then None
    else
      var negative := s[0] == '-';
      var digits := if s[0] == '-' || s[0] == '+' then s[1..] else s;
      if |digits| == 0 || !AllDigits(digits) then None
      else
        var n: int := DigitsValue(digits);
        var v := if negative then 0 - n else n;
        if lo <= v <= hi then Some(v) else None
  }

  function ParseLong(s: string): (r: Option<int>)
    ensures r.Some? ==> IsLong(r.value)
  {
    ParseInteger(s, LONG_MIN, LONG_MAX)
  }

  function ParseInt(s: string): (r: Option<int>)
    ensures r.Some? ==> IsInt(r.value)
  {
    ParseInteger(s, INT_MIN, INT_MAX)
  }

  /** The shortest decimal text of a natural number (what Long.toString gives). */
  function DecimalText(n: nat): (s: string)
    ensures |s| >= 1 && AllDigits(s)
  {
    if n < 10 then [DigitChar(n)] else DecimalText(n / 10) + [DigitChar(n % 10)]
  }

  lemma {:induction false} DigitsValueOfDecimalText(n: nat)
    ensures DigitsValue(DecimalText(n)) == n
  {
    if n >= 10 {
      DigitsValueOfDecimalText(n / 10);
      var s := DecimalText(n);
      assert s[..|s| - 1] == DecimalText(n / 10);
    }
  }

  /** Parsing is the inverse of printing, for every value in range. */
  lemma ParseLongOfDecimalText(n: nat)
    requires n <= LONG_MAX
    ensures ParseLong(DecimalText(n)) == Some(n)
  {
    DigitsValueOfDecimalText(n);
  }

  // ---------------------------------------------------------------------
  // Strings

  /** Java's String.trim strips every character up to U+0020 from both ends. */
  function TrimStart(s: string): (r: string)
    ensures |r| <= |s| && r == s[|s| - |r|..]
    ensures r != [] ==> r[0] > ' '
  {
    if s != [] && s[0] <= ' ' then TrimStart(s[1..]) else s
  }

  function Trim(s: string): (r: string)
  {
    var t := TrimStart(s);
    TrimEnd(t)
  }

  function TrimEnd(s: string): (r: string)
    ensures |r| <= |s| && r == s[..|r|]
    ensures r != [] ==> r[|r| - 1] > ' '
  {
    if s != [] && s[|s| - 1] <= ' ' then TrimEnd(s[..|s| - 1]) else s
  }

  /** `s.trim().isEmpty()`, stated without trimming. */
  predicate IsBlank(s: string) { forall i :: 0 <= i < |s| ==> s[i] <= ' ' }

  lemma {:induction false} TrimStartEmpty(s: string)
    ensures TrimStart(s) == [] <==> IsBlank(s)
  {
    if s != [] && s[0] <= ' ' {
      TrimStartEmpty(s[1..]);
      assert forall i :: 1 <= i < |s| ==> s[i] == s[1..][i - 1];
    }
  }

  lemma {:induction false} TrimEndKeepsNonBlank(s: string)
    ensures TrimEnd(s) == [] ==> IsBlank(s)
  {
    if s != [] && s[|s| - 1] <= ' ' {
      TrimEndKeepsNonBlank(s[..|s| - 1]);
    }
  }

  /** The blank test used by the validators agrees with trimming. */
  lemma TrimEmptyIffBlank(s: string)
    ensures Trim(s) == [] <==> IsBlank(s)
  {
    TrimStartEmpty(s);
    var t := TrimStart(s);
    TrimEndKeepsNonBlank(t);
    if IsBlank(s) {
      assert t == [];
    } else {
      assert t != [] && t[0] > ' ';
      assert !IsBlank(t);
    }
  }

  /** String.replace(char, char). */
  function Replace(s: string, from: char, to: char): (r: string)
    ensures |r| == |s|
    ensures forall i :: 0 <= i < |s| ==> r[i] == (if s[i] == from then to else s[i])
    ensures from != to ==> from !in r
  {
    if s == [] then [] else [if s[0] == from then to else s[0]] + Replace(s[1..], from, to)
  }

  /** Boolean.parseBoolean: true exactly for "true" in any letter case. */
  predicate ParseBoolean(s: string)
  {
    |s| == 4 && LowerAscii(s[0]) == 't' && LowerAscii(s[1]) == 'r'
    && LowerAscii(s[2]) == 'u' && LowerAscii(s[3]) == 'e'
  }

  function LowerAscii(c: char): char
  {
    if 'A' <= c <= 'Z' then ((c as int) + 32) as char else c
  }

  /** Every piece between separators, empty ones included. */
  function SplitAll(s: string, sep: char): (r: seq<string>)
    ensures |r| >= 1
    ensures forall k :: 0 <= k < |r| ==> sep !in r[k]
    ensures Join(r, sep) == s
  {
    if s == [] then [""]
    else
      var rest := SplitAll(s[1..], sep);
      if s[0] == sep then [""] + rest
      else
        assert Join(rest, sep) == rest[0] + (if |rest| == 1 then [] else [sep] + Join(rest[1..], sep));
        [[s[0]] + rest[0]] + rest[1..]
  }

  function Join(parts: seq<string>, sep: char): string
  {
    if parts == [] then []
    else if |parts| == 1 then parts[0]
    else parts[0] + [sep] + Join(parts[1..], sep)
  }

  function DropTrailingEmpty(parts: seq<string>): (r: seq<string>)
    ensures r <= parts
    ensures r == [] || r[|r| - 1] != []
    ensures forall k :: |r| <= k < |parts| ==> parts[k] == []
  {
    if parts == [] || parts[|parts| - 1] != [] then parts
    else DropTrailingEmpty(parts[..|parts| - 1])
  }

  /** Java's `s.split(",")` for a literal one-character separator: all the
      pieces with trailing empty pieces removed, except that a string without
      the separator (in particular the empty string) splits to itself. */
  function Split(s: string, sep: char): (r: seq<string>)
    ensures r <= SplitAll(s, sep)
    ensures forall k :: 0 <= k < |r| ==> sep !in r[k]
  {
    if sep !in s then [s] else DropTrailingEmpty(SplitAll(s, sep))
  }
}
