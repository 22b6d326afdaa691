/**
 * The standard-threshold-shift (STS) classifier: sex parsing, the averages
 * over the 2000/3000/4000 Hz bands with 90 dB standing in for an untested
 * band, the "could not test" rule, the per-ear status, and the lookup of a
 * person's age correction.
 */
module Interpret {
  import W = Wrappers
  import opened HearingData
  import opened AgeTable

  // ---------------------------------------------------------------------
  // Sex
  // ---------------------------------------------------------------------

  datatype PersonSex = Female | Male | Other

  /** String.prototype.toLowerCase on one character (ASCII letters only). */
  function LowerChar(c: char): char
  {
    if 'A' <= c <= 'Z' then (c as int - 'A' as int + 'a' as int) as char else c
  }

  function ToLowerCase(s: string): (r: string)
    ensures |r| == |s| && forall k :: 0 <= k < |s| ==> r[k] == LowerChar(s[k])
  {
    seq(|s|, k requires 0 <= k < |s| => LowerChar(s[k]))
  }

  /** `s` and `t` spell the same word, letter case aside. */
  predicate EqualsIgnoringCase(s: string, t: string)
  {
    |s| == |t| && forall k :: 0 <= k < |s| ==> LowerChar(s[k]) == LowerChar(t[k])
  }

  /** "male" and "female" in any letter case; every other text is Other. */
  function GetPersonSexFromString(val: string): (r: PersonSex)
    ensures r == Male <==> EqualsIgnoringCase(val, "male")
    ensures r == Female <==> EqualsIgnoringCase(val, "female")
  {
    var lowered := ToLowerCase(val);
    assert lowered == "male" <==> EqualsIgnoringCase(val, "male") by {
      if EqualsIgnoringCase(val, "male") {
        assert forall k :: 0 <= k < 4 ==> lowered[k] == "male"[k];
      }
    }
    assert lowered == "female" <==> EqualsIgnoringCase(val, "female") by {
      if EqualsIgnoringCase(val, "female") {
        assert forall k :: 0 <= k < 6 ==> lowered[k] == "female"[k];
      }
    }
    if lowered == "male" then Male
    else if lowered == "female" then Female
    else Other
  }

  /** Two spellings that differ only in letter case parse to the same sex. */
  lemma SexParsingIgnoresCase(s: string, t: string)
    requires EqualsIgnoringCase(s, t)
    ensures GetPersonSexFromString(s) == GetPersonSexFromString(t)
  {
    assert EqualsIgnoringCase(s, "male") <==> EqualsIgnoringCase(t, "male");
    assert EqualsIgnoringCase(s, "female") <==> EqualsIgnoringCase(t, "female");
  }

  // ---------------------------------------------------------------------
  // Statuses and report rows
  // ---------------------------------------------------------------------

  /** None and NewBaseline are declared by the source but never produced. */
  datatype AnomalyStatus = None | Baseline | NoSTS | NewBaseline | PossibleSTS | CNT
  {
    /** The outcome of comparing a year with the baseline. */
    predicate IsComparison()
    {
      this == NoSTS || this == PossibleSTS || this == CNT
    }
  }

  /** One report row: both ears' statuses for one year and the baseline year each ear was compared with. */
  datatype EarAnomalyStatus = EarAnomalyStatus(
    leftStatus: AnomalyStatus, rightStatus: AnomalyStatus, reportYear: int,
    leftBaselineYear: int, rightBaselineYear: int)

  /** A person's age in `currentYear`, sex, and yearly screenings, as given to the constructor. */
  datatype UserHearingScreeningHistory = UserHearingScreeningHistory(
    age: int, sex: PersonSex, currentYear: int, screenings: seq<HearingScreening>)

  // ---------------------------------------------------------------------
  // Averages
  // ---------------------------------------------------------------------

  function Sum(args: seq<int>): int
  {
    if |args| == 0 then 0 else Sum(args[..|args| - 1]) + args[|args| - 1]
  }

  function Mean(args: seq<int>): real
    requires |args| > 0
  {
    Sum(args) as real / |args| as real
  }

  /** findAverage: the arithmetic mean of its arguments, accumulated in a loop. */
  method FindAverage(args: seq<int>) returns (average: real)
    requires |args| > 0
    ensures average == Mean(args)
  {
    var sum := 0;
    var i := 0;
    while i < |args|
      invariant 0 <= i <= |args|
      invariant sum == Sum(args[..i])
    {
      assert args[..i + 1][..i] == args[..i];
      sum := sum + args[i];
      i := i + 1;
    }
    assert args[..|args|] == args;
    average := sum as real / |args| as real;
  }

  /** For a positive divisor, a quotient reaches `t` exactly when the dividend reaches `t` times the divisor. */
  lemma QuotientReaches(a: real, n: real, t: real)
    requires n > 0.0
    ensures a / n >= t <==> a >= t * n
  {
    var q := a / n;
    assert q * n == a;
    if q >= t {
      assert (q - t) * n >= 0.0;
    } else {
      assert (t - q) * n > 0.0;
    }
  }

  /** The mean of integers reaches an integer `t` exactly when their sum reaches `t` times their count. */
  lemma MeanReachesIffSumReaches(args: seq<int>, t: int)
    requires |args| > 0
    ensures Mean(args) >= t as real <==> Sum(args) >= t * |args|
  {
    QuotientReaches(Sum(args) as real, |args| as real, t as real);
    assert (t * |args|) as real == t as real * |args| as real;
  }

  lemma SumOfThree(x: int, y: int, z: int)
    ensures Sum([x, y, z]) == x + y + z
  {
    assert [x, y, z][..2] == [x, y];
    assert [x, y][..1] == [x];
    assert Sum([x]) == x;
    assert Sum([x, y]) == x + y;
  }

  lemma SumOfSeven(x0: int, x1: int, x2: int, x3: int, x4: int, x5: int, x6: int)
    ensures Sum([x0, x1, x2, x3, x4, x5, x6]) == x0 + x1 + x2 + x3 + x4 + x5 + x6
  {
    SumOfThree(x0, x1, x2);
    assert [x0, x1, x2, x3][..3] == [x0, x1, x2];
    assert Sum([x0, x1, x2, x3]) == x0 + x1 + x2 + x3;
    assert [x0, x1, x2, x3, x4][..4] == [x0, x1, x2, x3];
    assert Sum([x0, x1, x2, x3, x4]) == x0 + x1 + x2 + x3 + x4;
    assert [x0, x1, x2, x3, x4, x5][..5] == [x0, x1, x2, x3, x4];
    assert Sum([x0, x1, x2, x3, x4, x5]) == x0 + x1 + x2 + x3 + x4 + x5;
    assert [x0, x1, x2, x3, x4, x5, x6][..6] == [x0, x1, x2, x3, x4, x5];
  }

  // ---------------------------------------------------------------------
  // Levels with the worst-case substitution
  // ---------------------------------------------------------------------

  /** The level assumed for an untested band when averaging: the worst possible. */
  const WorstLevel := 90

  /** `reading ?? 90`. */
  function OrWorst(r: Reading): int
  {
    match r
    case None => WorstLevel
    case Some(v) => v
  }

  function Level(d: HearingDataOneEar, b: Band): int
  {
    OrWorst(At(d, b))
  }

  /** The bands that decide an STS. */
  const MainBands: seq<Band> := [Hz2000, Hz3000, Hz4000]

  const AllBands: seq<Band> := [Hz500, Hz1000, Hz2000, Hz3000, Hz4000, Hz6000, Hz8000]

  predicate IsMainBand(b: Band)
  {
    b in MainBands
  }

  /** The sum of the levels of `bands`, 90 dB counted for each untested one. */
  function LevelSum(d: HearingDataOneEar, bands: seq<Band>): int
  {
    if |bands| == 0 then 0 else Level(d, bands[0]) + LevelSum(d, bands[1..])
  }

  /** The age correction summed over the 2000, 3000 and 4000 Hz columns. */
  function MainCorrectionSum(c: AgeCorrection): int
  {
    c.hz2000 + c.hz3000 + c.hz4000
  }

  lemma LevelSumMain(d: HearingDataOneEar)
    ensures LevelSum(d, MainBands) == Level(d, Hz2000) + Level(d, Hz3000) + Level(d, Hz4000)
  {
    assert [Hz4000][1..] == [];
    assert LevelSum(d, [Hz4000]) == Level(d, Hz4000);
    assert [Hz3000, Hz4000][1..] == [Hz4000];
    assert LevelSum(d, [Hz3000, Hz4000]) == Level(d, Hz3000) + Level(d, Hz4000);
    assert MainBands[1..] == [Hz3000, Hz4000];
  }

  lemma LevelSumAll(d: HearingDataOneEar)
    ensures LevelSum(d, AllBands) == Level(d, Hz500) + Level(d, Hz1000) + Level(d, Hz2000) + Level(d, Hz3000)
                                     + Level(d, Hz4000) + Level(d, Hz6000) + Level(d, Hz8000)
  {
    assert [Hz8000][1..] == [];
    assert LevelSum(d, [Hz8000]) == Level(d, Hz8000);
    assert [Hz6000, Hz8000][1..] == [Hz8000];
    assert LevelSum(d, [Hz6000, Hz8000]) == Level(d, Hz6000) + Level(d, Hz8000);
    assert [Hz4000, Hz6000, Hz8000][1..] == [Hz6000, Hz8000];
    assert LevelSum(d, [Hz4000, Hz6000, Hz8000]) == Level(d, Hz4000) + Level(d, Hz6000) + Level(d, Hz8000);
    assert [Hz3000, Hz4000, Hz6000, Hz8000][1..] == [Hz4000, Hz6000, Hz8000];
    assert LevelSum(d, [Hz3000, Hz4000, Hz6000, Hz8000])
        == Level(d, Hz3000) + Level(d, Hz4000) + Level(d, Hz6000) + Level(d, Hz8000);
    assert [Hz2000, Hz3000, Hz4000, Hz6000, Hz8000][1..] == [Hz3000, Hz4000, Hz6000, Hz8000];
    assert LevelSum(d, [Hz2000, Hz3000, Hz4000, Hz6000, Hz8000])
        == Level(d, Hz2000) + Level(d, Hz3000) + Level(d, Hz4000) + Level(d, Hz6000) + Level(d, Hz8000);
    assert [Hz1000, Hz2000, Hz3000, Hz4000, Hz6000, Hz8000][1..] == [Hz2000, Hz3000, Hz4000, Hz6000, Hz8000];
    assert LevelSum(d, [Hz1000, Hz2000, Hz3000, Hz4000, Hz6000, Hz8000])
        == Level(d, Hz1000) + Level(d, Hz2000) + Level(d, Hz3000) + Level(d, Hz4000) + Level(d, Hz6000) + Level(d, Hz8000);
    assert AllBands[1..] == [Hz1000, Hz2000, Hz3000, Hz4000, Hz6000, Hz8000];
  }

  /** Band-wise equal levels give equal sums over any list of bands. */
  lemma {:induction false} LevelSumCongruent(d: HearingDataOneEar, e: HearingDataOneEar, bands: seq<Band>)
    requires forall k :: 0 <= k < |bands| ==> Level(d, bands[k]) == Level(e, bands[k])
    ensures LevelSum(d, bands) == LevelSum(e, bands)
  {
    if |bands| > 0 {
      assert forall k :: 0 <= k < |bands| - 1 ==> bands[1..][k] == bands[k + 1];
      LevelSumCongruent(d, e, bands[1..]);
    }
  }

  // ---------------------------------------------------------------------
  // Shifts
  // ---------------------------------------------------------------------

  /**
   * GetAverageHertzForSTSRangeForOneEar: the mean level at 2000, 3000 and
   * 4000 Hz, 90 dB counted for an untested band.
   */
  function GetAverageHertzForSTSRangeForOneEar(hdata: HearingDataOneEar): (r: real)
    ensures r == LevelSum(hdata, MainBands) as real / 3.0
  {
    var hz2000 := OrWorst(hdata.hz2000);
    var hz3000 := OrWorst(hdata.hz3000);
    var hz4000 := OrWorst(hdata.hz4000);
    SumOfThree(hz2000, hz3000, hz4000);
    LevelSumMain(hdata);
    Mean([hz2000, hz3000, hz4000])
  }

  /**
   * GetAverageDecibelChangeForOneEarForMainLevels: the mean change from
   * `hdata1` to `hdata2` over 2000, 3000 and 4000 Hz, 90 dB standing in for
   * an untested band on either side, less the age correction of those bands
   * when `doAgeCorrection` holds.
   */
  function GetAverageDecibelChangeForOneEarForMainLevels(
    hdata1: HearingDataOneEar, hdata2: HearingDataOneEar, ageCorrection: AgeCorrection, doAgeCorrection: bool := true): (r: real)
    ensures r == (LevelSum(hdata2, MainBands) - LevelSum(hdata1, MainBands)
                  - (if doAgeCorrection then MainCorrectionSum(ageCorrection) else 0)) as real / 3.0
  {
    var h1_2000 := OrWorst(hdata1.hz2000);
    var h1_3000 := OrWorst(hdata1.hz3000);
    var h1_4000 := OrWorst(hdata1.hz4000);

    var h2_2000 := OrWorst(hdata2.hz2000);
    var h2_3000 := OrWorst(hdata2.hz3000);
    var h2_4000 := OrWorst(hdata2.hz4000);

    var diff2000 := h2_2000 - h1_2000;
    var diff3000 := h2_3000 - h1_3000;
    var diff4000 := h2_4000 - h1_4000;

    var corrected :=
      if doAgeCorrection then
        [diff2000 - ageCorrection.hz2000, diff3000 - ageCorrection.hz3000, diff4000 - ageCorrection.hz4000]
      else
        [diff2000, diff3000, diff4000];
    SumOfThree(corrected[0], corrected[1], corrected[2]);
    LevelSumMain(hdata1);
    LevelSumMain(hdata2);
    Mean(corrected)
  }

  /**
   * GetAverageDecibelChangeForOneEar: the mean change over all seven bands,
   * with the same 90 dB substitution and no age correction.
   */
  function GetAverageDecibelChangeForOneEar(hdata1: HearingDataOneEar, hdata2: HearingDataOneEar): (r: real)
    ensures r == (LevelSum(hdata2, AllBands) - LevelSum(hdata1, AllBands)) as real / 7.0
  {
    var diff500 := OrWorst(hdata2.hz500) - OrWorst(hdata1.hz500);
    var diff1000 := OrWorst(hdata2.hz1000) - OrWorst(hdata1.hz1000);
    var diff2000 := OrWorst(hdata2.hz2000) - OrWorst(hdata1.hz2000);
    var diff3000 := OrWorst(hdata2.hz3000) - OrWorst(hdata1.hz3000);
    var diff4000 := OrWorst(hdata2.hz4000) - OrWorst(hdata1.hz4000);
    var diff6000 := OrWorst(hdata2.hz6000) - OrWorst(hdata1.hz6000);
    var diff8000 := OrWorst(hdata2.hz8000) - OrWorst(hdata1.hz8000);
    SumOfSeven(diff500, diff1000, diff2000, diff3000, diff4000, diff6000, diff8000);
    LevelSumAll(hdata1);
    LevelSumAll(hdata2);
    Mean([diff500, diff1000, diff2000, diff3000, diff4000, diff6000, diff8000])
  }

  /**
   * ShouldUpdateBaseline: the new average improves on the current one by at
   * least 5 dB. Its call sites are disabled, so no baseline ever advances.
   */
  function ShouldUpdateBaseline(currentAverage: real, newAverage: real): (r: bool)
    ensures r <==> currentAverage - newAverage >= 5.0
  {
    newAverage <= currentAverage - 5.0
  }

  // ---------------------------------------------------------------------
  // Per-ear classification
  // ---------------------------------------------------------------------

  /** confirmCNT: some band among 2000, 3000 and 4000 Hz was not tested. */
  function ConfirmCNT(hdata: HearingDataOneEar): (r: bool)
    ensures r <==> exists b :: IsMainBand(b) && At(hdata, b).None?
  {
    assert At(hdata, Hz2000) == hdata.hz2000 && At(hdata, Hz3000) == hdata.hz3000 && At(hdata, Hz4000) == hdata.hz4000;
    hdata.hz2000.None? || hdata.hz3000.None? || hdata.hz4000.None?
  }

  /**
   * GetStatusForEar: classifies the year `afterEarData` against the baseline.
   * StatusDecision states the rule.
   */
  function GetStatusForEar(
    baselineEarData: HearingDataOneEar, beforeEarData: HearingDataOneEar, afterEarData: HearingDataOneEar,
    correction: AgeCorrection): (r: AnomalyStatus)
    ensures r.IsComparison()
    ensures r == CNT <==> ConfirmCNT(baselineEarData) || ConfirmCNT(afterEarData)
  {
    var baselineAverageChange := GetAverageDecibelChangeForOneEarForMainLevels(baselineEarData, afterEarData, correction);
    var yearPriorAverageChange := GetAverageDecibelChangeForOneEarForMainLevels(beforeEarData, afterEarData, correction);
    if baselineAverageChange >= 10.0 then
      if ConfirmCNT(baselineEarData) || ConfirmCNT(afterEarData) then CNT
      else PossibleSTS
    else if ConfirmCNT(baselineEarData) || ConfirmCNT(afterEarData) then CNT
    else NoSTS
  }

  /**
   * The classification rule: CNT when the baseline or the current year
   * misses a 2000/3000/4000 Hz reading, whatever the shift; otherwise
   * PossibleSTS when the age-corrected average shift from the baseline
   * reaches 10 dB (its three-band sum reaches 30), and NoSTS below that.
   */
  lemma StatusDecision(base: HearingDataOneEar, before: HearingDataOneEar, after: HearingDataOneEar, c: AgeCorrection)
    ensures var r := GetStatusForEar(base, before, after, c);
            var shift := LevelSum(after, MainBands) - LevelSum(base, MainBands) - MainCorrectionSum(c);
            && (r == CNT <==> ConfirmCNT(base) || ConfirmCNT(after))
            && (r == PossibleSTS <==> !ConfirmCNT(base) && !ConfirmCNT(after) && shift >= 30)
            && (r == NoSTS <==> !ConfirmCNT(base) && !ConfirmCNT(after) && shift < 30)
  {
    MainShiftThreshold(base, after, c, true);
  }

  // ---------------------------------------------------------------------
  // Age correction lookup
  // ---------------------------------------------------------------------

  /** The error thrown when the table has no row for the clamped age. */
  datatype AgeLookupError = AgeNotFound(age: int)

  /** The lowest age the lookup clamps to; it has no row in either table. */
  const ClampLow := 19

  /** Math.min(Math.max(val, 19), 60). */
  function GetRowValue(val: int): (r: int)
    ensures ClampLow <= r <= LastAge
    ensures ClampLow <= val <= LastAge ==> r == val
    ensures val < ClampLow ==> r == ClampLow
    ensures val > LastAge ==> r == LastAge
  {
    if val < ClampLow then ClampLow else if val > LastAge then LastAge else val
  }

  /** The table consulted for each sex: Other falls back to the male table. */
  function CorrectionTableFor(sex: PersonSex): seq<AgeCorrection>
  {
    match sex
    case Female => FemaleTable
    case Male => MaleTable
    case Other => MaleTable
  }

  /** The position in a table of the row for `age`, ages past 60 taking the last row. */
  function TableIndex(age: int): (k: int)
    requires age >= FirstAge
    ensures 0 <= k <= LastAge - FirstAge
    ensures age <= LastAge ==> k == age - FirstAge
    ensures age > LastAge ==> k == LastAge - FirstAge
  {
    (if age > LastAge then LastAge else age) - FirstAge
  }

  /** Both tables, and so the table for any sex, hold ages 20 to 60 in order. */
  lemma TableForRowsByAge(sex: PersonSex)
    ensures RowsByAge(CorrectionTableFor(sex))
  {
    if sex == Female {
      FemaleTableRowsByAge();
    } else {
      MaleTableRowsByAge();
    }
  }

  /** The table for any sex is non-decreasing in every column. */
  lemma TableForColumnsNonDecreasing(sex: PersonSex, col: Column)
    ensures ColumnNonDecreasing(CorrectionTableFor(sex), col)
  {
    if sex == Female {
      FemaleColumnsNonDecreasing(col);
    } else {
      MaleColumnsNonDecreasing(col);
    }
  }

  /** The row a clamped age finds in a table of ages 20 to 60; ages below 20 find none. */
  lemma LookupRow(table: seq<AgeCorrection>, age: int)
    requires RowsByAge(table)
    ensures age < FirstAge ==> Find(table, GetRowValue(age)).None?
    ensures age >= FirstAge ==> Find(table, GetRowValue(age)) == W.Some(table[TableIndex(age)])
  {
    FindByAge(table, GetRowValue(age));
  }

  /**
   * GetAgeCorrectiveDecibelAdjustment: the row of the person's own age
   * (`this.age`, clamped to 19..60) in the table for their sex, with its age
   * field zeroed. `baselineAge` is clamped and then ignored. An age below 20
   * clamps to at least 19, which no table has, and the lookup throws.
   */
  function GetAgeCorrectiveDecibelAdjustment(h: UserHearingScreeningHistory, baselineAge: int): (r: W.Result<AgeCorrection, AgeLookupError>)
    ensures r.Ok? <==> h.age >= FirstAge
    ensures r.Err? ==> r.error == AgeNotFound(ClampLow)
    ensures r.Ok? ==>
              var row := CorrectionTableFor(h.sex)[TableIndex(h.age)];
              r.value == AgeCorrection(0, row.hz1000, row.hz2000, row.hz3000, row.hz4000, row.hz6000)
  {
    var correctionTable := CorrectionTableFor(h.sex);
    var baselineAgeRowValue := GetRowValue(baselineAge);
    var currentAgeRowValue := GetRowValue(h.age);
    TableForRowsByAge(h.sex);
    LookupRow(correctionTable, h.age);
    match Find(correctionTable, currentAgeRowValue)
    case None => W.Err(AgeNotFound(currentAgeRowValue))
    case Some(currentCorrection) =>
      W.Ok(AgeCorrection(0, currentCorrection.hz1000, currentCorrection.hz2000, currentCorrection.hz3000,
                         currentCorrection.hz4000, currentCorrection.hz6000))
  }

  // ---------------------------------------------------------------------
  // Properties of the shifts
  // ---------------------------------------------------------------------

  /** The ear with 90 dB written into every untested band. */
  function FillWorst(d: HearingDataOneEar): (r: HearingDataOneEar)
    ensures forall b :: At(r, b) == W.Some(Level(d, b))
  {
    HearingDataOneEar(
      W.Some(OrWorst(d.hz500)), W.Some(OrWorst(d.hz1000)), W.Some(OrWorst(d.hz2000)), W.Some(OrWorst(d.hz3000)),
      W.Some(OrWorst(d.hz4000)), W.Some(OrWorst(d.hz6000)), W.Some(OrWorst(d.hz8000)))
  }

  /** `d` and `e` hold the same readings at 2000, 3000 and 4000 Hz. */
  predicate SameMainReadings(d: HearingDataOneEar, e: HearingDataOneEar)
  {
    forall b :: IsMainBand(b) ==> At(d, b) == At(e, b)
  }

  /**
   * Leaving a band untested counts exactly as a measured 90 dB in both
   * shifts; the substitution is confined to the averaging.
   */
  lemma WorstCaseSubstitution(a: HearingDataOneEar, b: HearingDataOneEar, c: AgeCorrection, doAgeCorrection: bool)
    ensures GetAverageDecibelChangeForOneEarForMainLevels(a, b, c, doAgeCorrection)
            == GetAverageDecibelChangeForOneEarForMainLevels(FillWorst(a), FillWorst(b), c, doAgeCorrection)
    ensures GetAverageDecibelChangeForOneEar(a, b) == GetAverageDecibelChangeForOneEar(FillWorst(a), FillWorst(b))
  {
    LevelSumCongruent(a, FillWorst(a), MainBands);
    LevelSumCongruent(b, FillWorst(b), MainBands);
    LevelSumCongruent(a, FillWorst(a), AllBands);
    LevelSumCongruent(b, FillWorst(b), AllBands);
  }

  /** The main-level shift reads only the 2000, 3000 and 4000 Hz bands. */
  lemma MainShiftIsolation(
    a: HearingDataOneEar, a': HearingDataOneEar, b: HearingDataOneEar, b': HearingDataOneEar,
    c: AgeCorrection, doAgeCorrection: bool)
    requires SameMainReadings(a, a') && SameMainReadings(b, b')
    ensures GetAverageDecibelChangeForOneEarForMainLevels(a, b, c, doAgeCorrection)
            == GetAverageDecibelChangeForOneEarForMainLevels(a', b', c, doAgeCorrection)
  {
    LevelSumCongruent(a, a', MainBands);
    LevelSumCongruent(b, b', MainBands);
  }

  /** An average shift of at least 10 dB is a three-band sum of at least 30 dB. */
  lemma MainShiftThreshold(a: HearingDataOneEar, b: HearingDataOneEar, c: AgeCorrection, doAgeCorrection: bool)
    ensures GetAverageDecibelChangeForOneEarForMainLevels(a, b, c, doAgeCorrection) >= 10.0
            <==> LevelSum(b, MainBands) - LevelSum(a, MainBands)
                 - (if doAgeCorrection then MainCorrectionSum(c) else 0) >= 30
  {
    var x := LevelSum(b, MainBands) - LevelSum(a, MainBands) - (if doAgeCorrection then MainCorrectionSum(c) else 0);
    QuotientReaches(x as real, 3.0, 10.0);
  }

  /**
   * Without correction a shift is antisymmetric and zero from an ear to
   * itself; the correction lowers the main-level shift by a third of the
   * three corrections.
   */
  lemma ShiftAlgebra(a: HearingDataOneEar, b: HearingDataOneEar, c: AgeCorrection)
    ensures GetAverageDecibelChangeForOneEarForMainLevels(a, b, c, false)
            == -GetAverageDecibelChangeForOneEarForMainLevels(b, a, c, false)
    ensures GetAverageDecibelChangeForOneEarForMainLevels(a, a, c, false) == 0.0
    ensures GetAverageDecibelChangeForOneEar(a, b) == -GetAverageDecibelChangeForOneEar(b, a)
    ensures GetAverageDecibelChangeForOneEar(a, a) == 0.0
    ensures GetAverageDecibelChangeForOneEarForMainLevels(a, b, c, true)
            == GetAverageDecibelChangeForOneEarForMainLevels(a, b, c, false) - MainCorrectionSum(c) as real / 3.0
  {
  }

  /**
   * When only the 2000, 3000 and 4000 Hz levels differ, the seven-band
   * shift is the uncorrected main-level shift spread over seven bands.
   */
  lemma WholeShiftOfMainOnlyChange(a: HearingDataOneEar, b: HearingDataOneEar, c: AgeCorrection)
    requires forall f :: !IsMainBand(f) ==> Level(a, f) == Level(b, f)
    ensures 7.0 * GetAverageDecibelChangeForOneEar(a, b) == 3.0 * GetAverageDecibelChangeForOneEarForMainLevels(a, b, c, false)
  {
    LevelSumAll(a);
    LevelSumAll(b);
    LevelSumMain(a);
    LevelSumMain(b);
    assert !IsMainBand(Hz500) && !IsMainBand(Hz1000) && !IsMainBand(Hz6000) && !IsMainBand(Hz8000);
  }

  /**
   * The disabled baseline-advance rule, on integer readings: the new
   * three-band average improves by 5 dB exactly when the three-band sum
   * drops by 15 dB.
   */
  lemma BaselineAdvanceCriterion(current: HearingDataOneEar, next: HearingDataOneEar)
    ensures ShouldUpdateBaseline(GetAverageHertzForSTSRangeForOneEar(current), GetAverageHertzForSTSRangeForOneEar(next))
            <==> LevelSum(next, MainBands) <= LevelSum(current, MainBands) - 15
  {
  }

  // ---------------------------------------------------------------------
  // Properties of the classifier
  // ---------------------------------------------------------------------

  /** A compared year is NoSTS, PossibleSTS or CNT, never None, Baseline or NewBaseline. */
  lemma StatusIsComparison(base: HearingDataOneEar, before: HearingDataOneEar, after: HearingDataOneEar, c: AgeCorrection)
    ensures GetStatusForEar(base, before, after, c).IsComparison()
  {
    StatusDecision(base, before, after, c);
  }

  /** The prior year's data never changes the status. */
  lemma StatusIgnoresPriorYear(
    base: HearingDataOneEar, before: HearingDataOneEar, before': HearingDataOneEar, after: HearingDataOneEar,
    c: AgeCorrection)
    ensures GetStatusForEar(base, before, after, c) == GetStatusForEar(base, before', after, c)
  {
  }

  /** The 500, 1000, 6000 and 8000 Hz readings never change the status. */
  lemma StatusIsolation(
    base: HearingDataOneEar, base': HearingDataOneEar, before: HearingDataOneEar,
    after: HearingDataOneEar, after': HearingDataOneEar, c: AgeCorrection)
    requires SameMainReadings(base, base') && SameMainReadings(after, after')
    ensures GetStatusForEar(base, before, after, c) == GetStatusForEar(base', before, after', c)
  {
    StatusDecision(base, before, after, c);
    StatusDecision(base', before, after', c);
    MainShiftIsolation(base, base', after, after', c, true);
    LevelSumMain(base);
    LevelSumMain(base');
    LevelSumMain(after);
    LevelSumMain(after');
    assert ConfirmCNT(base) == ConfirmCNT(base') && ConfirmCNT(after) == ConfirmCNT(after');
  }

  /** An ear with the same reading in every band. */
  function Flat(x: int): HearingDataOneEar
  {
    HearingDataOneEar(W.Some(x), W.Some(x), W.Some(x), W.Some(x), W.Some(x), W.Some(x), W.Some(x))
  }

  /**
   * The worked cases, with the corrections of a man of 30 (4, 6 and 9 dB at
   * 2000, 3000 and 4000 Hz) and a 10 dB baseline: an unchanged year and a
   * 25 dB year are NoSTS, a 30 dB year is PossibleSTS, and a baseline with
   * 3000 Hz untested gives CNT.
   */
  lemma WorkedCases()
    ensures var c := AgeCorrection(0, 6, 4, 6, 9, 12);
            && GetStatusForEar(Flat(10), Flat(10), Flat(10), c) == NoSTS
            && GetStatusForEar(Flat(10), Flat(10), Flat(25), c) == NoSTS
            && GetStatusForEar(Flat(10), Flat(10), Flat(30), c) == PossibleSTS
            && GetStatusForEar(Flat(10).(hz3000 := W.None), Flat(10), Flat(30), c) == CNT
  {
    var c := AgeCorrection(0, 6, 4, 6, 9, 12);
    LevelSumMain(Flat(10));
    LevelSumMain(Flat(25));
    LevelSumMain(Flat(30));
    StatusDecision(Flat(10), Flat(10), Flat(10), c);
    StatusDecision(Flat(10), Flat(10), Flat(25), c);
    StatusDecision(Flat(10), Flat(10), Flat(30), c);
  }

  // ---------------------------------------------------------------------
  // Properties of the age lookup
  // ---------------------------------------------------------------------

  /** A man of 30 gets the corrections of the worked cases. */
  lemma LookupManOfThirty(currentYear: int, screenings: seq<HearingScreening>, baselineAge: int)
    ensures GetAgeCorrectiveDecibelAdjustment(UserHearingScreeningHistory(30, Male, currentYear, screenings), baselineAge)
            == W.Ok(AgeCorrection(0, 6, 4, 6, 9, 12))
  {
    SpotValues();
  }

  /** Ages 19 and below fail for every sex; 20 and 60 succeed. */
  lemma LookupBoundaries(sex: PersonSex, currentYear: int, screenings: seq<HearingScreening>, age: int)
    ensures age <= ClampLow ==>
              GetAgeCorrectiveDecibelAdjustment(UserHearingScreeningHistory(age, sex, currentYear, screenings), age)
              == W.Err(AgeNotFound(19))
    ensures age == FirstAge || age == LastAge ==>
              GetAgeCorrectiveDecibelAdjustment(UserHearingScreeningHistory(age, sex, currentYear, screenings), age).Ok?
  {
  }

  /** Other is corrected exactly as Male. */
  lemma OtherUsesMaleTable(h: UserHearingScreeningHistory, baselineAge: int)
    requires h.sex == Other
    ensures GetAgeCorrectiveDecibelAdjustment(h, baselineAge) == GetAgeCorrectiveDecibelAdjustment(h.(sex := Male), baselineAge)
  {
  }

  /** The baseline age passed in never matters. */
  lemma LookupIgnoresBaselineAge(h: UserHearingScreeningHistory, x: int, y: int)
    ensures GetAgeCorrectiveDecibelAdjustment(h, x) == GetAgeCorrectiveDecibelAdjustment(h, y)
  {
  }

  /** The lookup reads only the person's age and sex. */
  lemma LookupReadsAgeAndSex(h: UserHearingScreeningHistory, h': UserHearingScreeningHistory, x: int, y: int)
    requires h.age == h'.age && h.sex == h'.sex
    ensures GetAgeCorrectiveDecibelAdjustment(h, x) == GetAgeCorrectiveDecibelAdjustment(h', y)
  {
  }

  /** Everyone of 60 or older is corrected as a 60-year-old. */
  lemma LookupCapsAtSixty(h: UserHearingScreeningHistory, baselineAge: int)
    requires h.age >= LastAge
    ensures GetAgeCorrectiveDecibelAdjustment(h, baselineAge) == GetAgeCorrectiveDecibelAdjustment(h.(age := LastAge), baselineAge)
  {
  }

  /** An older person of the same sex gets at least as large a correction in every column. */
  lemma LookupGrowsWithAge(h: UserHearingScreeningHistory, h': UserHearingScreeningHistory, col: Column)
    requires h.sex == h'.sex && FirstAge <= h.age <= h'.age
    ensures var r := GetAgeCorrectiveDecibelAdjustment(h, 0);
            var r' := GetAgeCorrectiveDecibelAdjustment(h', 0);
            r.Ok? && r'.Ok? && Cell(r.value, col) <= Cell(r'.value, col)
  {
    var table := CorrectionTableFor(h.sex);
    var i, j := TableIndex(h.age), TableIndex(h'.age);
    TableForRowsByAge(h.sex);
    TableForColumnsNonDecreasing(h.sex, col);
    ColumnOrdered(table, col, i, j);
    assert Cell(GetAgeCorrectiveDecibelAdjustment(h, 0).value, col) == Cell(table[i], col);
    assert Cell(GetAgeCorrectiveDecibelAdjustment(h', 0).value, col) == Cell(table[j], col);
  }

  /** With a correction from the tables, the corrected main-level shift is at least 3 dB below the raw one. */
  lemma TableCorrectionLowersShift(h: UserHearingScreeningHistory, baselineAge: int, a: HearingDataOneEar, b: HearingDataOneEar)
    requires GetAgeCorrectiveDecibelAdjustment(h, baselineAge).Ok?
    ensures var c := GetAgeCorrectiveDecibelAdjustment(h, baselineAge).value;
            GetAverageDecibelChangeForOneEarForMainLevels(a, b, c, true)
            <= GetAverageDecibelChangeForOneEarForMainLevels(a, b, c, false) - 3.0
  {
    var c := GetAgeCorrectiveDecibelAdjustment(h, baselineAge).value;
    var table := CorrectionTableFor(h.sex);
    var i := TableIndex(h.age);
    TableForRowsByAge(h.sex);
    if h.sex == Female {
      FemaleCorrectionsAtLeastThree(Col2000);
      FemaleCorrectionsAtLeastThree(Col3000);
      FemaleCorrectionsAtLeastThree(Col4000);
    } else {
      MaleCorrectionsAtLeastThree(Col2000);
      MaleCorrectionsAtLeastThree(Col3000);
      MaleCorrectionsAtLeastThree(Col4000);
    }
    assert Cell(table[i], Col2000) >= 3 && Cell(table[i], Col3000) >= 3 && Cell(table[i], Col4000) >= 3;
    assert MainCorrectionSum(c) >= 9;
  }
}
