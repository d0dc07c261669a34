/** `lib.timeranges.RelativeRange`: the time range "the last `range` seconds",
    as the web interface hands it to the server in a query string. */
module TimeRanges {
  import opened Wrappers

  /** Java's `int`. */
  newtype Int32 = x: int | -0x8000_0000 <= x < 0x8000_0000

  /** The values a range that passed the constructor's guard can hold. */
  type NonNegativeInt32 = x: Int32 | 0 <= x

  /** The kinds of `TimeRange`; `getType` tells them apart. */
  datatype TimeRangeType = Absolute | Relative | Keyword

  /** `InvalidRangeParametersException`, thrown by the constructor. */
  datatype InvalidRangeParameters = InvalidRangeParameters

  /** A constructed `RelativeRange`. Its only field is `final`, so a value of
      this datatype never changes after construction. */
  datatype RelativeRange = RelativeRange(range: NonNegativeInt32)

  /** `new RelativeRange(range)`: a negative range throws and yields no
      object; every other range, 0 included, is stored as given. */
  function Create(range: Int32): (r: Result<RelativeRange, InvalidRangeParameters>)
    ensures r.Success? <==> 0 <= range
    ensures r.Success? ==> r.value.range == range
  {
    if range < 0 then Failure(InvalidRangeParameters) else Success(RelativeRange(range))
  }

  /** `getType()`. */
  function GetType(r: RelativeRange): (t: TimeRangeType)
    ensures t == Relative
  {
    Relative
  }

  /** `getQueryParams()`: a fresh map with the single key "range", whose value
      is the decimal rendering of the range; it carries no sign and reads back
      as the range. */
  function GetQueryParams(r: RelativeRange): (m: map<string, string>)
    ensures m.Keys == {"range"}
    ensures IsCanonicalDecimal(m["range"]) && m["range"][0] != '-'
    ensures ParseNonNegative(m["range"]) == Some(r.range as int)
  {
    DecimalRoundTrip(r.range as int);
    map["range" := Decimal(r.range as int)]
  }

  // ---- Decimal rendering (`String.valueOf(int)` on a non-negative int) ----

  predicate IsDigit(c: char) {
    '0' <= c <= '9'
  }

  function DigitChar(d: nat): (c: char)
    requires d < 10
    ensures IsDigit(c) && DigitValue(c) == d
  {
    (('0' as int) + d) as char
  }

  function DigitValue(c: char): nat
    requires IsDigit(c)
  {
    c as int - '0' as int
  }

  /** A decimal numeral as Java prints a non-negative int: at least one digit,
      digits only, and no leading zero unless the numeral is "0". */
  predicate IsCanonicalDecimal(s: string) {
    |s| > 0 && (forall i :: 0 <= i < |s| ==> IsDigit(s[i])) && (s[0] == '0' ==> |s| == 1)
  }

  /** `String.valueOf(n)` for `n >= 0`. */
  function Decimal(n: nat): (s: string)
    ensures IsCanonicalDecimal(s)
    ensures s[0] == '0' <==> n == 0
  {
    if n < 10 then [DigitChar(n)] else Decimal(n / 10) + [DigitChar(n % 10)]
  }

  /** The value of a string of digits, most significant first. */
  function DigitsValue(s: string): nat
    requires forall i :: 0 <= i < |s| ==> IsDigit(s[i])
  {
    if |s| == 0 then 0 else DigitsValue(s[..|s| - 1]) * 10 + DigitValue(s[|s| - 1])
  }

  /** Reads back an unsigned decimal numeral; anything else is rejected. */
  function ParseNonNegative(s: string): (r: Option<nat>)
    ensures r.Some? <==> |s| > 0 && forall i :: 0 <= i < |s| ==> IsDigit(s[i])
  {
    if |s| > 0 && forall i :: 0 <= i < |s| ==> IsDigit(s[i]) then Some(DigitsValue(s)) else None
  }

  /** Reading the rendering back yields the number. */
  lemma {:induction false} DecimalRoundTrip(n: nat)
    ensures ParseNonNegative(Decimal(n)) == Some(n)
  {
    var s := Decimal(n);
    if n < 10 {
      assert s[..|s| - 1] == [];
    } else {
      DecimalRoundTrip(n / 10);
      assert s[..|s| - 1] == Decimal(n / 10);
      assert DigitsValue(s) == (n / 10) * 10 + n % 10;
    }
  }

  /** A string of digits is worth 0 only when every digit is '0'. */
  lemma {:induction false} ZeroValueAllZeros(s: string)
    requires forall i :: 0 <= i < |s| ==> IsDigit(s[i])
    requires DigitsValue(s) == 0
    ensures forall i :: 0 <= i < |s| ==> s[i] == '0'
  {
    if |s| > 0 {
      ZeroValueAllZeros(s[..|s| - 1]);
      assert forall i :: 0 <= i < |s| - 1 ==> s[i] == s[..|s| - 1][i];
    }
  }

  /** The other direction: every canonical numeral is the rendering of its
      value, so the rendering is a bijection between naturals and canonical
      numerals. */
  lemma {:induction false} CanonicalIsDecimal(s: string)
    requires IsCanonicalDecimal(s)
    ensures Decimal(DigitsValue(s)) == s
  {
    if |s| > 1 {
      var p := s[..|s| - 1];
      assert p[0] == s[0];
      assert IsCanonicalDecimal(p);
      if DigitsValue(p) == 0 {
        ZeroValueAllZeros(p);
        assert false;
      }
      CanonicalIsDecimal(p);
      assert s == p + [s[|s| - 1]];
    }
  }

  /** Distinct ranges render differently. */
  lemma DecimalInjective(a: nat, b: nat)
    requires Decimal(a) == Decimal(b)
    ensures a == b
  {
    DecimalRoundTrip(a);
    DecimalRoundTrip(b);
  }
}
