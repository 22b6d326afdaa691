/**
 * One ear's audiogram, the yearly screening record, and the conversion of an
 * audiogram to and from the text form used by forms and storage, where an
 * untested band ("could not test") is written "CNT".
 */
module HearingData {
  import opened Wrappers

  /** A threshold in decibels, or None when the band could not be tested (null in the source). */
  type Reading = Option<int>

  /** The seven audiometric bands, in the order the source lists them. */
  datatype Band = Hz500 | Hz1000 | Hz2000 | Hz3000 | Hz4000 | Hz6000 | Hz8000

  /** One ear, one year: seven optional readings. */
  datatype HearingDataOneEar = HearingDataOneEar(
    hz500: Reading, hz1000: Reading, hz2000: Reading, hz3000: Reading,
    hz4000: Reading, hz6000: Reading, hz8000: Reading)

  /** The same seven readings as text. */
  datatype HearingDataOneEarString = HearingDataOneEarString(
    hz500: string, hz1000: string, hz2000: string, hz3000: string,
    hz4000: string, hz6000: string, hz8000: string)

  /** One employee's screening for one calendar year. */
  datatype HearingScreening = HearingScreening(year: int, leftEar: HearingDataOneEar, rightEar: HearingDataOneEar)

  /** The reading of band `b`. */
  function At(d: HearingDataOneEar, b: Band): Reading
  {
    match b
    case Hz500 => d.hz500
    case Hz1000 => d.hz1000
    case Hz2000 => d.hz2000
    case Hz3000 => d.hz3000
    case Hz4000 => d.hz4000
    case Hz6000 => d.hz6000
    case Hz8000 => d.hz8000
  }

  /** The text of band `b`. */
  function TextAt(s: HearingDataOneEarString, b: Band): string
  {
    match b
    case Hz500 => s.hz500
    case Hz1000 => s.hz1000
    case Hz2000 => s.hz2000
    case Hz3000 => s.hz3000
    case Hz4000 => s.hz4000
    case Hz6000 => s.hz6000
    case Hz8000 => s.hz8000
  }

  /** The marker written for an untested band. */
  const CntText := "CNT"

  // ---------------------------------------------------------------------
  // Decimal text of integers: Number.prototype.toString and parseInt,
  // restricted to strings of the form -?[0-9]+.
  // ---------------------------------------------------------------------

  predicate IsDigit(c: char)
  {
    '0' <= c <= '9'
  }

  predicate AllDigits(s: string)
  {
    forall k :: 0 <= k < |s| ==> IsDigit(s[k])
  }

  function DigitValue(c: char): (d: nat)
    requires IsDigit(c)
    ensures d < 10
  {
    c as int - '0' as int
  }

  function DigitChar(d: nat): (c: char)
    requires d < 10
    ensures IsDigit(c) && DigitValue(c) == d
  {
    ('0' as int + d) as char
  }

  /** The decimal digits of `n`, most significant first, without leading zeros. */
  function NatToDecimal(n: nat): (s: string)
    ensures |s| >= 1 && AllDigits(s)
    ensures |s| > 1 ==> s[0] != '0'
  {
    if n < 10 then [DigitChar(n)]
    else NatToDecimal(n / 10) + [DigitChar(n % 10)]
  }

  /** The number written by a string of digits (0 for the empty string). */
  function DigitsValue(s: string): nat
    requires AllDigits(s)
  {
    if |s| == 0 then 0
    else DigitsValue(s[..|s| - 1]) * 10 + DigitValue(s[|s| - 1])
  }

  /** `n.toString()` for an integer `n`. */
  function IntToString(n: int): (s: string)
    ensures |s| >= 1 && (s[0] == '-' || IsDigit(s[0]))
  {
    if n < 0 then "-" + NatToDecimal(-n) else NatToDecimal(n)
  }

  /**
   * `parseInt(s)` on a string of the form -?[0-9]+; any other string gives
   * None, which stands for the NaN (or other behaviour) of parseInt that
   * this model leaves out.
   */
  function ParseDecimal(s: string): Option<int>
  {
    if |s| > 0 && s[0] == '-' then
      if |s| > 1 && AllDigits(s[1..]) then Some(0 - DigitsValue(s[1..])) else None
    else if |s| > 0 && AllDigits(s) then Some(DigitsValue(s))
    else None
  }

  /** Decimal text as toString writes it: no leading zero and no "-0". */
  predicate IsCanonicalDecimal(s: string)
  {
    if |s| > 0 && s[0] == '-' then |s| > 1 && AllDigits(s[1..]) && s[1] != '0'
    else |s| > 0 && AllDigits(s) && (|s| == 1 || s[0] != '0')
  }

  lemma {:induction false} DigitsValueOfNatToDecimal(n: nat)
    ensures DigitsValue(NatToDecimal(n)) == n
  {
    if n >= 10 {
      var s := NatToDecimal(n);
      assert s[..|s| - 1] == NatToDecimal(n / 10);
      DigitsValueOfNatToDecimal(n / 10);
    }
  }

  lemma {:induction false} LeadingNonZeroIsPositive(s: string)
    requires |s| >= 1 && AllDigits(s) && s[0] != '0'
    ensures DigitsValue(s) >= 1
  {
    if |s| > 1 {
      LeadingNonZeroIsPositive(s[..|s| - 1]);
    }
  }

  lemma {:induction false} NatToDecimalOfDigitsValue(s: string)
    requires |s| >= 1 && AllDigits(s) && (|s| == 1 || s[0] != '0')
    ensures NatToDecimal(DigitsValue(s)) == s
  {
    var v := DigitsValue(s);
    if |s| == 1 {
      assert DigitChar(DigitValue(s[0])) == s[0];
    } else {
      var p := s[..|s| - 1];
      LeadingNonZeroIsPositive(p);
      NatToDecimalOfDigitsValue(p);
      assert v / 10 == DigitsValue(p) && v % 10 == DigitValue(s[|s| - 1]);
      assert DigitChar(DigitValue(s[|s| - 1])) == s[|s| - 1];
      assert p + [s[|s| - 1]] == s;
    }
  }

  /** parseInt undoes toString on every integer. */
  lemma ParseDecimalOfIntToString(n: int)
    ensures ParseDecimal(IntToString(n)) == Some(n)
  {
    var s := IntToString(n);
    if n < 0 {
      var t := NatToDecimal(-n);
      DigitsValueOfNatToDecimal(-n);
      assert s == "-" + t;
      assert s[0] == '-' && |s| > 1 && s[1..] == t;
      assert AllDigits(s[1..]);
      assert ParseDecimal(s) == Some(0 - DigitsValue(t));
    } else {
      var t := NatToDecimal(n);
      DigitsValueOfNatToDecimal(n);
      assert s == t && IsDigit(t[0]);
      assert ParseDecimal(s) == Some(DigitsValue(t));
    }
  }

  /** toString undoes parseInt on canonical decimal text. */
  lemma IntToStringOfParseDecimal(s: string)
    requires IsCanonicalDecimal(s)
    ensures ParseDecimal(s).Some? && IntToString(ParseDecimal(s).value) == s
  {
    if s[0] == '-' {
      var t := s[1..];
      LeadingNonZeroIsPositive(t);
      NatToDecimalOfDigitsValue(t);
      assert "-" + t == s;
    } else {
      NatToDecimalOfDigitsValue(s);
    }
  }

  // ---------------------------------------------------------------------
  // One reading and one ear to and from text.
  // ---------------------------------------------------------------------

  /** `r?.toString() ?? "CNT"`. */
  function ReadingToString(r: Reading): (s: string)
    ensures s == CntText <==> r.None?
    ensures r.Some? ==> ParseDecimal(s) == Some(r.value)
  {
    match r
    case None => CntText
    case Some(n) => ParseDecimalOfIntToString(n); IntToString(n)
  }

  /**
   * `s === "CNT" ? null : parseInt(s)`. The outer None marks text that is
   * neither "CNT" nor a decimal integer (where the source would store NaN).
   */
  function StringToReading(s: string): (r: Option<Reading>)
    ensures s == CntText ==> r == Some(None)
    ensures IsCanonicalDecimal(s) ==> r.Some? && r.value.Some? && IntToString(r.value.value) == s
  {
    if s == CntText then Some(None)
    else match ParseDecimal(s)
      case None => None
      case Some(n) =>
        if IsCanonicalDecimal(s) then IntToStringOfParseDecimal(s); Some(Some(n))
        else Some(Some(n))
  }

  function ConvertHearingDataOneEarToStrings(data: HearingDataOneEar): (r: HearingDataOneEarString)
    ensures forall b :: TextAt(r, b) == ReadingToString(At(data, b))
  {
    HearingDataOneEarString(
      ReadingToString(data.hz500), ReadingToString(data.hz1000), ReadingToString(data.hz2000),
      ReadingToString(data.hz3000), ReadingToString(data.hz4000), ReadingToString(data.hz6000),
      ReadingToString(data.hz8000))
  }

  function ConvertStringsToHearingDataOneEar(data: HearingDataOneEarString): (r: Option<HearingDataOneEar>)
    ensures r.Some? <==> forall b :: StringToReading(TextAt(data, b)).Some?
    ensures r.Some? ==> forall b :: Some(At(r.value, b)) == StringToReading(TextAt(data, b))
  {
    var r500 := StringToReading(data.hz500);
    var r1000 := StringToReading(data.hz1000);
    var r2000 := StringToReading(data.hz2000);
    var r3000 := StringToReading(data.hz3000);
    var r4000 := StringToReading(data.hz4000);
    var r6000 := StringToReading(data.hz6000);
    var r8000 := StringToReading(data.hz8000);
    if r500.Some? && r1000.Some? && r2000.Some? && r3000.Some? && r4000.Some? && r6000.Some? && r8000.Some? then
      Some(HearingDataOneEar(r500.value, r1000.value, r2000.value, r3000.value, r4000.value, r6000.value, r8000.value))
    else
      var b :=
        if r500.None? then Hz500 else if r1000.None? then Hz1000 else if r2000.None? then Hz2000
        else if r3000.None? then Hz3000 else if r4000.None? then Hz4000 else if r6000.None? then Hz6000
        else Hz8000;
      assert StringToReading(TextAt(data, b)).None?;
      None
  }

  lemma ReadingRoundTrip(r: Reading)
    ensures StringToReading(ReadingToString(r)) == Some(r)
  {
    if r.Some? {
      assert IntToString(r.value)[0] != 'C';
    }
  }

  lemma ReadingRoundTripFromText(s: string)
    requires s == CntText || IsCanonicalDecimal(s)
    ensures StringToReading(s).Some? && ReadingToString(StringToReading(s).value) == s
  {
  }

  /** An ear survives the trip to text and back, with null and "CNT" in correspondence band by band. */
  lemma ConvertRoundTrip(data: HearingDataOneEar)
    ensures forall b :: TextAt(ConvertHearingDataOneEarToStrings(data), b) == CntText <==> At(data, b).None?
    ensures ConvertStringsToHearingDataOneEar(ConvertHearingDataOneEarToStrings(data)) == Some(data)
  {
    ReadingRoundTrip(data.hz500);
    ReadingRoundTrip(data.hz1000);
    ReadingRoundTrip(data.hz2000);
    ReadingRoundTrip(data.hz3000);
    ReadingRoundTrip(data.hz4000);
    ReadingRoundTrip(data.hz6000);
    ReadingRoundTrip(data.hz8000);
  }

  /** Text whose every band is "CNT" or canonical decimal survives the trip to an ear and back. */
  lemma ConvertRoundTripFromText(text: HearingDataOneEarString)
    requires forall b :: TextAt(text, b) == CntText || IsCanonicalDecimal(TextAt(text, b))
    ensures ConvertStringsToHearingDataOneEar(text).Some?
    ensures ConvertHearingDataOneEarToStrings(ConvertStringsToHearingDataOneEar(text).value) == text
  {
    ReadingRoundTripFromText(TextAt(text, Hz500));
    ReadingRoundTripFromText(TextAt(text, Hz1000));
    ReadingRoundTripFromText(TextAt(text, Hz2000));
    ReadingRoundTripFromText(TextAt(text, Hz3000));
    ReadingRoundTripFromText(TextAt(text, Hz4000));
    ReadingRoundTripFromText(TextAt(text, Hz6000));
    ReadingRoundTripFromText(TextAt(text, Hz8000));
  }
}
