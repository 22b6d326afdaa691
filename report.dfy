/**
 * The yearly report: one row per screening, the first marked Baseline for
 * both ears and every later one classified against that first screening.
 * Screenings are taken in the order given; nothing sorts them, and the
 * baseline never advances (the rule that would move it is disabled).
 */
module HearingReport {
  import W = Wrappers
  import opened HearingData
  import opened AgeTable
  import opened Interpret

  /** The row for the baseline year: no comparison is made. */
  function BaselineRow(year: int): EarAnomalyStatus
  {
    EarAnomalyStatus(Baseline, Baseline, year, year, year)
  }

  /** The age the person had in the baseline year (passed to the lookup, which ignores it). */
  function BaselineAge(h: UserHearingScreeningHistory, baseline: HearingScreening): int
  {
    baseline.year - h.currentYear + h.age
  }

  /** The row for screening `after`, both ears compared against `baseline`. */
  function YearRow(baseline: HearingScreening, before: HearingScreening, after: HearingScreening, c: AgeCorrection): EarAnomalyStatus
  {
    EarAnomalyStatus(
      GetStatusForEar(baseline.leftEar, before.leftEar, after.leftEar, c),
      GetStatusForEar(baseline.rightEar, before.rightEar, after.rightEar, c),
      after.year, baseline.year, baseline.year)
  }

  /**
   * The rows of a report whose age correction is `c`: Baseline for the
   * first screening, and every later screening compared with the first.
   */
  function Rows(s: seq<HearingScreening>, c: AgeCorrection): seq<EarAnomalyStatus>
    requires |s| >= 1
  {
    seq(|s|, i requires 0 <= i < |s| => if i == 0 then BaselineRow(s[0].year) else YearRow(s[0], s[i - 1], s[i], c))
  }

  /**
   * The report the generator must produce: empty for no screenings, a lone
   * Baseline row for one, and otherwise, once the age correction is found,
   * the Baseline row followed by every later year compared with the first.
   */
  function Report(h: UserHearingScreeningHistory): W.Result<seq<EarAnomalyStatus>, AgeLookupError>
  {
    var s := h.screenings;
    if |s| == 0 then W.Ok([])
    else if |s| == 1 then W.Ok([BaselineRow(s[0].year)])
    else
      match GetAgeCorrectiveDecibelAdjustment(h, BaselineAge(h, s[0]))
      case Err(e) => W.Err(e)
      case Ok(c) => W.Ok(Rows(s, c))
  }

  /**
   * GenerateHearingReport: builds the rows one year at a time, keeping each
   * ear's baseline index and year in local variables. A failed age lookup
   * aborts the whole report.
   */
  method GenerateHearingReport(h: UserHearingScreeningHistory) returns (r: W.Result<seq<EarAnomalyStatus>, AgeLookupError>)
    ensures r == Report(h)
  {
    var screenings := h.screenings;
    var arrayLength := |screenings|;
    if arrayLength == 0 {
      return W.Ok([]);
    }
    if arrayLength == 1 {
      var year := screenings[0].year;
      return W.Ok([EarAnomalyStatus(Baseline, Baseline, year, year, year)]);
    }

    var reportArray: seq<EarAnomalyStatus> := [];
    var bestLeftEarIndex := 0;
    var bestLeftEarYear := screenings[0].year;
    var bestRightEarIndex := 0;
    var bestRightEarYear := screenings[0].year;
    var bestLeftEarAverage := GetAverageHertzForSTSRangeForOneEar(screenings[0].leftEar);
    var bestRightEarAverage := GetAverageHertzForSTSRangeForOneEar(screenings[0].rightEar);

    var firstYear := screenings[0].year;
    reportArray := reportArray + [EarAnomalyStatus(Baseline, Baseline, firstYear, firstYear, firstYear)];

    ghost var lookup := GetAgeCorrectiveDecibelAdjustment(h, BaselineAge(h, screenings[0]));
    var i := 1;
    while i < arrayLength
      invariant 1 <= i <= arrayLength
      invariant |reportArray| == i
      invariant reportArray[0] == BaselineRow(firstYear)
      invariant i > 1 ==> lookup.Ok?
      invariant forall k :: 1 <= k < i ==>
                  reportArray[k] == YearRow(screenings[0], screenings[k - 1], screenings[k], lookup.value)
    {
      var previousScreening := screenings[i - 1];
      var afterScreening := screenings[i];

      var newLeftEarAverage := GetAverageHertzForSTSRangeForOneEar(afterScreening.leftEar);
      var newRightEarAverage := GetAverageHertzForSTSRangeForOneEar(afterScreening.rightEar);

      var baselineLeftScreening := screenings[bestLeftEarIndex];
      var baselineRightScreening := screenings[bestRightEarIndex];

      var baselineLeftAge := baselineLeftScreening.year - h.currentYear + h.age;
      var baselineRightAge := baselineRightScreening.year - h.currentYear + h.age;

      var ageCorrectionLeft := GetAgeCorrectiveDecibelAdjustment(h, baselineLeftAge);
      if ageCorrectionLeft.Err? {
        return W.Err(ageCorrectionLeft.error);
      }
      var ageCorrectionRight := GetAgeCorrectiveDecibelAdjustment(h, baselineRightAge);
      if ageCorrectionRight.Err? {
        // The lookup reads only the person's age and sex, which the left
        // ear's lookup has just found in the table.
        assert false;
      }

      var leftAnomalyStatus := GetStatusForEar(
        baselineLeftScreening.leftEar, previousScreening.leftEar, afterScreening.leftEar, ageCorrectionLeft.value);
      var rightAnomalyStatus := GetStatusForEar(
        baselineRightScreening.rightEar, previousScreening.rightEar, afterScreening.rightEar, ageCorrectionRight.value);

      reportArray := reportArray + [EarAnomalyStatus(
        leftAnomalyStatus, rightAnomalyStatus, afterScreening.year, bestLeftEarYear, bestRightEarYear)];

      // The baseline-advance step (ShouldUpdateBaseline on the three-band
      // averages) is disabled, so the baseline indices and years stay put.
      i := i + 1;
    }
    assert lookup.Ok?;
    ghost var expected := Report(h).value;
    assert forall k :: 0 <= k < arrayLength ==> reportArray[k] == expected[k];
    assert reportArray == expected;
    return W.Ok(reportArray);
  }

  // ---------------------------------------------------------------------
  // Properties of the report
  // ---------------------------------------------------------------------

  /** No screenings give an empty report, which is not an error. */
  lemma ReportOfNoScreenings(h: UserHearingScreeningHistory)
    requires |h.screenings| == 0
    ensures Report(h) == W.Ok([])
  {
  }

  /** One screening gives one Baseline row, every year in it that screening's year, and no age lookup. */
  lemma ReportOfOneScreening(h: UserHearingScreeningHistory)
    requires |h.screenings| == 1
    ensures Report(h) == W.Ok([EarAnomalyStatus(Baseline, Baseline, h.screenings[0].year, h.screenings[0].year, h.screenings[0].year)])
  {
  }

  /**
   * The report fails only when a comparison is needed (two screenings or
   * more) and the person is younger than 20, with the error naming age 19.
   */
  lemma ReportFailure(h: UserHearingScreeningHistory)
    ensures Report(h).Err? <==> |h.screenings| >= 2 && h.age < FirstAge
    ensures Report(h).Err? ==> Report(h).error == AgeNotFound(ClampLow)
  {
  }

  /** Row i of the rows, past the first, compares screening i with the first. */
  lemma RowAt(s: seq<HearingScreening>, c: AgeCorrection, i: int)
    requires 1 <= i < |s|
    ensures Rows(s, c)[i] == YearRow(s[0], s[i - 1], s[i], c)
  {
  }

  /** The rows for correction `c`: one per screening, Baseline first, every later row a comparison with the first. */
  lemma RowsShape(s: seq<HearingScreening>, c: AgeCorrection)
    requires |s| >= 1
    ensures |Rows(s, c)| == |s|
    ensures Rows(s, c)[0] == BaselineRow(s[0].year)
    ensures forall i :: 1 <= i < |s| ==>
              && Rows(s, c)[i].reportYear == s[i].year
              && Rows(s, c)[i].leftBaselineYear == s[0].year && Rows(s, c)[i].rightBaselineYear == s[0].year
              && Rows(s, c)[i].leftStatus.IsComparison()
              && Rows(s, c)[i].rightStatus.IsComparison()
  {
    forall i | 1 <= i < |s|
      ensures && Rows(s, c)[i].reportYear == s[i].year
              && Rows(s, c)[i].leftBaselineYear == s[0].year && Rows(s, c)[i].rightBaselineYear == s[0].year
              && Rows(s, c)[i].leftStatus.IsComparison()
              && Rows(s, c)[i].rightStatus.IsComparison()
    {
      RowAt(s, c, i);
      StatusIsComparison(s[0].leftEar, s[i - 1].leftEar, s[i].leftEar, c);
      StatusIsComparison(s[0].rightEar, s[i - 1].rightEar, s[i].rightEar, c);
    }
  }

  /**
   * A report has one row per screening, in input order: row 0 is Baseline
   * for both ears, and every later row carries its screening's year, a
   * comparison status for each ear, and the first screening's year as both
   * baseline years.
   */
  lemma ReportShape(h: UserHearingScreeningHistory)
    requires Report(h).Ok?
    ensures var rows := Report(h).value;
            var s := h.screenings;
            && |rows| == |s|
            && (|s| > 0 ==> rows[0] == BaselineRow(s[0].year))
            && forall i :: 1 <= i < |s| ==>
                 && rows[i].reportYear == s[i].year
                 && rows[i].leftBaselineYear == s[0].year && rows[i].rightBaselineYear == s[0].year
                 && rows[i].leftStatus.IsComparison()
                 && rows[i].rightStatus.IsComparison()
  {
    var s := h.screenings;
    if |s| >= 2 {
      RowsShape(s, GetAgeCorrectiveDecibelAdjustment(h, BaselineAge(h, s[0])).value);
    }
  }

  /** Row i of the rows depends on the first screening and screening i alone. */
  lemma RowDependsOnBaselineAndYear(s: seq<HearingScreening>, s': seq<HearingScreening>, c: AgeCorrection, i: int)
    requires 1 <= i < |s| && i < |s'|
    requires s[0] == s'[0] && s[i] == s'[i]
    ensures Rows(s, c)[i] == Rows(s', c)[i]
  {
    StatusIgnoresPriorYear(s[0].leftEar, s[i - 1].leftEar, s'[i - 1].leftEar, s[i].leftEar, c);
    StatusIgnoresPriorYear(s[0].rightEar, s[i - 1].rightEar, s'[i - 1].rightEar, s[i].rightEar, c);
  }

  /**
   * Row i of a report depends on the first screening and screening i alone:
   * two histories of the same person that agree on those two screenings
   * agree on row i, whatever the other years hold.
   */
  lemma ReportRowDependsOnBaselineAndYear(h: UserHearingScreeningHistory, h': UserHearingScreeningHistory, i: int)
    requires h.age == h'.age && h.sex == h'.sex
    requires Report(h).Ok?
    requires 1 <= i < |h.screenings| && i < |h'.screenings|
    requires h.screenings[0] == h'.screenings[0] && h.screenings[i] == h'.screenings[i]
    ensures Report(h').Ok? && Report(h).value[i] == Report(h').value[i]
  {
    var s, s' := h.screenings, h'.screenings;
    var c := GetAgeCorrectiveDecibelAdjustment(h, BaselineAge(h, s[0])).value;
    LookupReadsAgeAndSex(h, h', BaselineAge(h, s[0]), BaselineAge(h', s'[0]));
    RowDependsOnBaselineAndYear(s, s', c, i);
  }

  /** Dropping the latest screenings drops the matching rows and changes no other row. */
  lemma RowsOfPrefix(s: seq<HearingScreening>, c: AgeCorrection, n: int)
    requires 1 <= n <= |s|
    ensures Rows(s[..n], c) == Rows(s, c)[..n]
  {
    assert forall k :: 0 <= k < n ==> Rows(s[..n], c)[k] == Rows(s, c)[..n][k];
  }

  /** Dropping the latest screenings drops the matching report rows and changes no other row. */
  lemma ReportOfPrefix(h: UserHearingScreeningHistory, n: int)
    requires 1 <= n <= |h.screenings|
    requires Report(h).Ok?
    ensures var h' := h.(screenings := h.screenings[..n]);
            Report(h').Ok? && Report(h').value == Report(h).value[..n]
  {
    var s := h.screenings;
    if n >= 2 {
      RowsOfPrefix(s, GetAgeCorrectiveDecibelAdjustment(h, BaselineAge(h, s[0])).value, n);
      LookupReadsAgeAndSex(h, h.(screenings := s[..n]), BaselineAge(h, s[0]), BaselineAge(h, s[0]));
    }
  }

  /**
   * The current year never changes the report: it enters only the baseline
   * age, which the age lookup ignores.
   */
  lemma ReportIgnoresCurrentYear(h: UserHearingScreeningHistory, year: int)
    ensures Report(h.(currentYear := year)) == Report(h)
  {
    var h' := h.(currentYear := year);
    var s := h.screenings;
    if |s| >= 2 {
      LookupReadsAgeAndSex(h, h', BaselineAge(h, s[0]), BaselineAge(h', s[0]));
    }
  }
}
