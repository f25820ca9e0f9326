/** Character classes, case mapping, decimal formatting and joining, as Python's
    `str` operations use them in the tools. */
module Strings {
  import opened Sequences

  /** The word characters of the regular expression `\w`, restricted to ASCII. */
  predicate IsWordChar(c: char) {
    ('a' <= c <= 'z') || ('A' <= c <= 'Z') || ('0' <= c <= '9') || c == '_'
  }

  predicate AllWordChars(s: string) {
    forall i :: 0 <= i < |s| ==> IsWordChar(s[i])
  }

  predicate IsUpper(c: char) {
    'A' <= c <= 'Z'
  }

  /** No character of `s` is an upper-case letter. */
  predicate IsLowercase(s: string) {
    forall i :: 0 <= i < |s| ==> !IsUpper(s[i])
  }

  function LowerChar(c: char): (d: char)
    ensures !IsUpper(d)
    ensures IsWordChar(c) <==> IsWordChar(d)
  {
    if IsUpper(c) then (c as int + 32) as char else c
  }

  /** `s.lower()`, restricted to ASCII letters: every other character is kept. */
  function Lower(s: string): (r: string)
    ensures |r| == |s| && IsLowercase(r)
  {
    seq(|s|, i requires 0 <= i < |s| => LowerChar(s[i]))
  }

  // ----- decimal formatting: `f"{n}"` for an int, and its inverse -----

  predicate IsDigit(c: char) {
    '0' <= c <= '9'
  }

  predicate AllDigits(s: string) {
    forall i :: 0 <= i < |s| ==> IsDigit(s[i])
  }

  function DigitChar(d: nat): (c: char)
    requires d < 10
    ensures IsDigit(c) && c as int - '0' as int == d
  {
    ('0' as int + d) as char
  }

  /** The decimal digits of `n`, most significant first, without leading zeros. */
  function NatToDecimal(n: nat): (s: string)
    ensures |s| > 0 && AllDigits(s)
  {
    if n < 10 then [DigitChar(n)] else NatToDecimal(n / 10) + [DigitChar(n % 10)]
  }

  /** A character that can appear in a formatted int. */
  predicate IsNumeralChar(c: char) {
    IsDigit(c) || c == '-'
  }

  /** The shape IntToDecimal produces: an optional minus sign, then digits. */
  predicate IsNumeral(s: string) {
    |s| > 0 && (s[0] == '-' ==> |s| > 1 && AllDigits(s[1..])) && (s[0] != '-' ==> AllDigits(s))
  }

  /** The length of the run of numeral characters that starts `s`. */
  function NumeralLength(s: string): (n: nat)
    ensures n <= |s|
  {
    if s == [] || !IsNumeralChar(s[0]) then 0 else 1 + NumeralLength(s[1..])
  }

  /** A run of numeral characters followed by anything else is read up to its end. */
  lemma {:induction false} NumeralLengthIs(s: string, k: nat)
    requires k <= |s| && forall i :: 0 <= i < k ==> IsNumeralChar(s[i])
    requires k < |s| ==> !IsNumeralChar(s[k])
    ensures NumeralLength(s) == k
  {
    if k > 0 {
      NumeralLengthIs(s[1..], k - 1);
    }
  }

  /** `str(n)` for a Python int: a minus sign for negative values, then the digits. */
  function IntToDecimal(n: int): (s: string)
    ensures IsNumeral(s)
    ensures forall i :: 0 <= i < |s| ==> IsNumeralChar(s[i])
  {
    if n < 0 then "-" + NatToDecimal(-n) else NatToDecimal(n)
  }

  function DecimalToNat(s: string): nat
    requires AllDigits(s)
  {
    if s == [] then 0
    else DecimalToNat(s[..|s| - 1]) * 10 + (s[|s| - 1] as int - '0' as int)
  }

  /** Reads back what IntToDecimal writes. */
  function DecimalToInt(s: string): int
    requires IsNumeral(s)
  {
    if s[0] == '-' then 0 - DecimalToNat(s[1..]) else DecimalToNat(s)
  }

  lemma {:induction false} NatDecimalRoundTrip(n: nat)
    ensures DecimalToNat(NatToDecimal(n)) == n
  {
    if n >= 10 {
      var s := NatToDecimal(n);
      assert s[..|s| - 1] == NatToDecimal(n / 10);
      NatDecimalRoundTrip(n / 10);
    }
  }

  /** Formatting an int and reading it back gives the int again. */
  lemma IntDecimalRoundTrip(n: int)
    ensures DecimalToInt(IntToDecimal(n)) == n
  {
    var s := IntToDecimal(n);
    if n < 0 {
      assert s[1..] == NatToDecimal(-n);
      NatDecimalRoundTrip(-n);
    } else {
      NatDecimalRoundTrip(n);
    }
  }

  // ----- joining and splitting -----

  /** `sep.join(xs)`. */
  function Join(xs: seq<string>, sep: string): string {
    if |xs| == 0 then ""
    else if |xs| == 1 then xs[0]
    else xs[0] + sep + Join(xs[1..], sep)
  }

  /** `"".join(xs)`. */
  function Concat(xs: seq<string>): string {
    if xs == [] then "" else xs[0] + Concat(xs[1..])
  }

  lemma {:induction false} ConcatAppend(xs: seq<string>, ys: seq<string>)
    ensures Concat(xs + ys) == Concat(xs) + Concat(ys)
  {
    if xs == [] {
      assert xs + ys == ys;
    } else {
      assert (xs + ys)[1..] == xs[1..] + ys;
      ConcatAppend(xs[1..], ys);
    }
  }

  /** The pieces of a `", "`-separated list, for pieces that hold no comma:
      the inverse of `Join(_, ", ")`. */
  function SplitCommaList(s: string): seq<string>
    decreases |s|
  {
    if s == [] then []
    else if ',' !in s then [s]
    else
      var i := IndexOf(s, ',');
      var next := if i + 2 <= |s| then i + 2 else |s|;
      [s[..i]] + SplitCommaList(s[next..])
  }

  lemma {:induction false} SplitJoinRoundTrip(xs: seq<string>)
    requires forall k :: 0 <= k < |xs| ==> |xs[k]| > 0 && ',' !in xs[k]
    ensures SplitCommaList(Join(xs, ", ")) == xs
  {
    if |xs| == 1 {
      assert Join(xs, ", ") == xs[0];
    } else if |xs| > 1 {
      var rest := Join(xs[1..], ", ");
      var s := xs[0] + ", " + rest;
      assert s[|xs[0]|] == ',';
      assert s[..|xs[0]|] == xs[0];
      assert IndexOf(s, ',') == |xs[0]| by {
        assert forall j :: 0 <= j < |xs[0]| ==> s[j] == xs[0][j];
      }
      assert s[|xs[0]| + 2..] == rest;
      SplitJoinRoundTrip(xs[1..]);
    }
  }
}
