# STS classification engine: a Dafny model

This project models the standard-threshold-shift (STS) classifier of a workplace hearing-screening
application. The application keeps each employee's yearly audiograms. An audiogram holds seven
threshold readings per ear, at 500, 1000, 2000, 3000, 4000, 6000 and 8000 Hz. A band that could not
be tested is `null` in memory and `"CNT"` in text. The engine compares every later year with the
first year, the baseline, one ear at a time:

- It subtracts the baseline's 2000/3000/4000 Hz levels from the year's levels.
- It subtracts an age correction taken from a sex-specific table.
- It averages the three differences, counting an untested band as 90 dB.
- It reports `PossibleSTS` when the average reaches 10 dB and `NoSTS` below that.
- It reports `CNT` whenever either audiogram misses one of those three bands.

Modules:

- `Wrappers` (`wrappers.dfy`) defines `Option` and `Result`. `Option` stands for `null`. `Result`
  stands for an exception that aborts the computation.
- `AgeTable` (`agetable.dfy`) holds the two 41-row correction tables and `Find`, the model of
  `Array.prototype.find` by age. It proves the tables' shape: one row per age from 20 to 60, every
  column non-decreasing, every value at least 3 dB.
- `HearingData` (`hearingdata.dfy`) holds the reading and screening types and the conversion of an ear
  to and from text. `toString` and `parseInt` are modelled on decimal integers, and both round trips
  are proved.
- `Interpret` (`interpret.dfy`) holds:
  - sex parsing;
  - `findAverage`, written as a loop;
  - the three shift averages;
  - `confirmCNT` and the per-ear classifier;
  - the age-correction lookup.
- `HearingReport` (`report.dfy`) holds `GenerateHearingReport`, written as the source's loop over the
  screenings. It is proved equal to the function `Report`, and the report's properties are proved about
  `Report`.

Averages are exact `real`s. For integer readings, "the mean of three values reaches 10" is proved
equivalent to "their sum reaches 30" (`MainShiftThreshold`, `MeanReachesIffSumReaches`).

Three behaviours of the code are easy to misread, and the model keeps each as written:

- The generator does not sort. It takes the screenings in the order given, so row i reports
  screening i.
- The baseline age is computed (`src/lib/interpret.ts:248-249`) and clamped (`:172`), but only the
  row of `this.age` is looked up (`:173-177`). `LookupIgnoresBaselineAge` and
  `ReportIgnoresCurrentYear` prove that neither the baseline age nor the current year changes
  anything.
- The thrown error names only the clamped age, which is always 19 when it is thrown. The model's
  error is `AgeNotFound(19)`.

## Model

| member | source | states |
|---|---|---|
| Interpret.GetPersonSexFromString | src/lib/interpret.ts:7-14 | Male exactly for "male" in any letter case, Female exactly for "female" in any letter case, Other for every other text |
| Interpret.SexParsingIgnoresCase | src/lib/interpret.ts:7-14 | two spellings that differ only in letter case parse to the same sex |
| Interpret.ToLowerCase | src/lib/interpret.ts:8 | the lowered text has the same length and lowers each character in place |
| Interpret.FindAverage | src/lib/interpret.ts:22-29 | the loop's result is the arithmetic mean `Mean(args)`: the sum of the arguments over their count |
| Interpret.MeanReachesIffSumReaches | src/lib/interpret.ts:22-29 | the mean of integers reaches an integer t exactly when their sum reaches t times their count |
| HearingData.ReadingToString | src/lib/interpret.ts:72 | a reading is written "CNT" exactly when it is null; otherwise its text parses back to its value |
| HearingData.StringToReading | src/lib/interpret.ts:84 | "CNT" reads as null; canonical decimal text reads as the integer it writes |
| HearingData.ParseDecimalOfIntToString | src/lib/interpret.ts:72-90 | parseInt undoes toString on every integer, as the model writes integers in plain decimal (see Left out) |
| HearingData.IntToStringOfParseDecimal | src/lib/interpret.ts:72-90 | toString undoes parseInt on canonical decimal text |
| HearingData.NatToDecimal | src/lib/interpret.ts:72 | the decimal text of a natural number is non-empty, all digits, with no leading zero |
| HearingData.ConvertHearingDataOneEarToStrings | src/lib/interpret.ts:70-80 | every band's text is that band's reading written out, null as "CNT" |
| HearingData.ConvertStringsToHearingDataOneEar | src/lib/interpret.ts:82-92 | defined exactly when every band's text is "CNT" or a decimal integer, and then every band holds that text's reading |
| HearingData.ReadingRoundTrip | src/lib/interpret.ts:72-90 | one reading survives writing and reading back |
| HearingData.ConvertRoundTrip | src/lib/interpret.ts:70-92 | an ear survives the trip to text and back, with null and "CNT" in correspondence in every band |
| HearingData.ReadingRoundTripFromText | src/lib/interpret.ts:72-90 | "CNT" or canonical decimal text survives reading and writing back |
| HearingData.ConvertRoundTripFromText | src/lib/interpret.ts:70-92 | text whose every band is "CNT" or canonical decimal survives the trip to an ear and back |
| Interpret.GetAverageHertzForSTSRangeForOneEar | src/lib/interpret.ts:306-315 | the mean of the 2000/3000/4000 Hz levels, 90 dB counted for an untested band |
| Interpret.GetAverageDecibelChangeForOneEarForMainLevels | src/lib/interpret.ts:322-360 | the three-band level change from the first ear to the second, less the three corrections when asked (the default), divided by 3 |
| Interpret.GetAverageDecibelChangeForOneEar | src/lib/interpret.ts:366-406 | the seven-band level change divided by 7, with no correction |
| Interpret.WorstCaseSubstitution | src/lib/interpret.ts:329-335 | an untested band counts exactly as a measured 90 dB in both shift averages |
| Interpret.MainShiftIsolation | src/lib/interpret.ts:322-360 | the main-level shift reads only the 2000, 3000 and 4000 Hz bands |
| Interpret.MainShiftThreshold | src/lib/interpret.ts:123 | an average shift of at least 10 dB is a three-band sum of at least 30 dB |
| Interpret.ShiftAlgebra | src/lib/interpret.ts:337-349 | without correction both shifts are antisymmetric and zero from an ear to itself; the correction lowers the main shift by a third of the three corrections |
| Interpret.WholeShiftOfMainOnlyChange | src/lib/interpret.ts:366-406 | when only the main bands differ, 7 times the seven-band shift equals 3 times the uncorrected main shift |
| Interpret.ShouldUpdateBaseline | src/lib/interpret.ts:296-299 | holds exactly when the new average improves on the current one by at least 5 dB; `BaselineAdvanceCriterion` restates this on the three-band sums |
| Interpret.BaselineAdvanceCriterion | src/lib/interpret.ts:296-299 | ShouldUpdateBaseline on two three-band averages holds exactly when the new three-band sum is at least 15 dB below the current one |
| Interpret.ConfirmCNT | src/lib/interpret.ts:137-147 | true exactly when some band among 2000, 3000 and 4000 Hz is untested |
| Interpret.GetStatusForEar | src/lib/interpret.ts:118-135 | the status is NoSTS, PossibleSTS or CNT, and CNT exactly when the baseline or the current year fails confirmCNT; the full three-way rule is `StatusDecision` |
| Interpret.StatusDecision | src/lib/interpret.ts:118-135 | CNT exactly when the baseline or the current year fails confirmCNT, whatever the shift; otherwise PossibleSTS exactly when the corrected three-band sum change reaches 30 (average at least 10), and NoSTS exactly when it is below 30 |
| Interpret.StatusIsComparison | src/lib/interpret.ts:118-135 | the status is NoSTS, PossibleSTS or CNT, never None, Baseline or NewBaseline |
| Interpret.StatusIgnoresPriorYear | src/lib/interpret.ts:120-121 | the prior year's audiogram never changes the status |
| Interpret.StatusIsolation | src/lib/interpret.ts:118-147 | the 500, 1000, 6000 and 8000 Hz readings never change the status |
| Interpret.WorkedCases | src/lib/interpret.ts:118-135 | with a man of 30's corrections and a 10 dB baseline, an unchanged year and a 25 dB year are NoSTS, a 30 dB year is PossibleSTS, and a baseline with 3000 Hz untested is CNT |
| Interpret.GetRowValue | src/lib/interpret.ts:155-157 | the age itself when it lies in 19..60, 19 below that and 60 above |
| Interpret.LookupRow | src/lib/interpret.ts:173-180 | in a table of ages 20 to 60, find by a clamped age finds nothing below 20 and otherwise the row of the age, capped at 60 |
| Interpret.GetAgeCorrectiveDecibelAdjustment | src/lib/interpret.ts:154-192 | succeeds exactly when the person is at least 20; on failure the error names age 19; on success the result is the five corrections of the person's own row (age capped at 60) in the table for their sex, with age 0 |
| Interpret.TableForRowsByAge | src/lib/interpret.ts:158-169 | the table chosen for any sex has one row per age from 20 to 60 |
| Interpret.TableForColumnsNonDecreasing | src/lib/interpret.ts:158-169 | the table chosen for any sex is non-decreasing in every column |
| Interpret.LookupManOfThirty | src/lib/interpret.ts:154-192 | a man of 30 gets corrections 6, 4, 6, 9 and 12 dB |
| Interpret.LookupBoundaries | src/lib/interpret.ts:155-180 | ages 19 and below fail with AgeNotFound(19) for every sex; ages 20 and 60 succeed |
| Interpret.OtherUsesMaleTable | src/lib/interpret.ts:159-169 | Other is corrected exactly as Male |
| Interpret.LookupIgnoresBaselineAge | src/lib/interpret.ts:172-177 | the baseline age passed in never changes the result |
| Interpret.LookupReadsAgeAndSex | src/lib/interpret.ts:154-192 | two histories with the same age and sex get the same result |
| Interpret.LookupCapsAtSixty | src/lib/interpret.ts:155-156 | everyone of 60 or older is corrected as a 60-year-old |
| Interpret.LookupGrowsWithAge | src/lib/interpret.ts:173-189 | an older person of the same sex gets at least as large a correction in every column |
| Interpret.TableCorrectionLowersShift | src/lib/interpret.ts:341-344 | with a correction from the tables, the corrected main shift is at least 3 dB below the raw one |
| AgeTable.Find | src/lib/interpret.ts:177 | find returns nothing exactly when no row has the age; otherwise it returns the first row with that age |
| AgeTable.FindByAge | src/lib/agetable.ts:12-54 | in a table of ages 20 to 60 in order, find gives the row at position age - 20 for ages 20..60 and nothing outside |
| AgeTable.MaleTableRowsByAge | src/lib/agetable.ts:12-54 | the male table has 41 rows for the ages 20, 21, ..., 60 in order |
| AgeTable.FemaleTableRowsByAge | src/lib/agetable.ts:56-97 | the female table has 41 rows for the ages 20, 21, ..., 60 in order |
| AgeTable.MaleColumnsNonDecreasing | src/lib/agetable.ts:13-53 | every male column is non-decreasing with age |
| AgeTable.FemaleColumnsNonDecreasing | src/lib/agetable.ts:57-97 | every female column is non-decreasing with age |
| AgeTable.ColumnOrdered | src/lib/agetable.ts:13-97 | in a column that is non-decreasing row to row, any earlier row is at most any later row |
| AgeTable.MaleCorrectionsAtLeastThree | src/lib/agetable.ts:13-53 | every male correction is at least 3 dB |
| AgeTable.FemaleCorrectionsAtLeastThree | src/lib/agetable.ts:57-97 | every female correction is at least 3 dB |
| AgeTable.SpotValues | src/lib/agetable.ts:23 | the male row for 30 is 6, 4, 6, 9, 12 and the female row for 60 (line 97) is 14, 12, 16, 17, 22 |
| HearingReport.GenerateHearingReport | src/lib/interpret.ts:199-287 | the loop returns exactly `Report(h)`: the rows of `Report`, or the lookup's error |
| HearingReport.ReportOfNoScreenings | src/lib/interpret.ts:201-204 | no screenings give an empty report, not an error |
| HearingReport.ReportOfOneScreening | src/lib/interpret.ts:205-214 | one screening gives one Baseline/Baseline row whose three years are that screening's year |
| HearingReport.ReportFailure | src/lib/interpret.ts:237-257 | the report fails exactly when there are at least two screenings and the person is under 20, with the error AgeNotFound(19) |
| HearingReport.RowsShape | src/lib/interpret.ts:229-271 | for a given correction there is one row per screening, row 0 is Baseline/Baseline, and row i carries screening i's year, the first screening's year as both baseline years, and comparison statuses |
| HearingReport.ReportShape | src/lib/interpret.ts:216-286 | a successful report has one row per screening in input order: row 0 is Baseline/Baseline, and every later row carries its screening's year, the first screening's year as both baseline years, and NoSTS, PossibleSTS or CNT for each ear |
| HearingReport.RowDependsOnBaselineAndYear | src/lib/interpret.ts:261-262 | for a given correction, row i depends only on the first screening and screening i |
| HearingReport.ReportRowDependsOnBaselineAndYear | src/lib/interpret.ts:237-271 | two histories of the same person that agree on the first screening and screening i agree on row i; the baseline never advances |
| HearingReport.RowsOfPrefix | src/lib/interpret.ts:237-271 | the rows of a prefix of the screenings are the prefix of the rows |
| HearingReport.ReportOfPrefix | src/lib/interpret.ts:237-285 | dropping the latest screenings drops the matching report rows and changes no other row |
| HearingReport.ReportIgnoresCurrentYear | src/lib/interpret.ts:248-257 | the current year, which enters only the unused baseline age, never changes the report |

## Left out

- `console.log` and `console.error` calls (`src/lib/interpret.ts:138-145, 202, 251-254`) are output only and are not modelled.
- Floating point: averages are exact reals. For integer readings the 10 dB test is decided exactly by the integer sum, so nothing changes at that threshold (the 5 dB baseline test is different; see `BaselineAdvanceCriterion` below). Non-integer readings, ages and years are not modelled; all are integers here.
- Interpret.FindAverage: requires a non-empty argument list. The source would return NaN for an empty list, but it never calls findAverage with fewer than three values.
- JavaScript `parseInt` is modelled only on text of the form `-?[0-9]+`. Any other text (where `parseInt` gives NaN or reads a prefix) makes `StringToReading`, and so the ear conversion, return None. `toString` is modelled on integers.
- HearingData.StringToReading: promises the round trip only for canonical decimal text. Text with leading zeros still parses, but does not write back the same.
- `toLowerCase` is modelled on the ASCII letters A-Z only. Other Unicode case mappings are not modelled.
- `UserHearingScreeningHistory` is a value (`datatype`), not a class: its constructor only stores its four arguments, and no method changes them.
- Interpret.GetStatusForEar: its own contract states only the range of the result and the CNT case. The whole rule is the lemma `StatusDecision`, kept apart so that proofs about the report stay small.
- The callers of `ShouldUpdateBaseline` are commented out (`src/lib/interpret.ts:133, 275-284`). The generator keeps the baseline at index 0, as the source does, and `NewBaseline` is never produced.
- Interpret.BaselineAdvanceCriterion: holds in exact reals only. The source compares IEEE doubles, and for a three-band sum that drops by exactly 15 dB the rounding of the two divisions by 3 can make the source's test false (sums 32 and 17 give 5.666666666666667 <= 5.666666666666666). The rule is disabled in the source, so no report is affected.
- HearingData.IntToString: readings are unbounded integers written in plain decimal. JavaScript's exponent notation for |n| >= 1e21 (where `parseInt` of the text reads only the leading digit) and the loss of precision past 2^53 are not modelled, so `ParseDecimalOfIntToString` holds for every integer in the model but not for such values in the source.
- The thrown `Error`'s message text is not modelled. The error is `AgeNotFound(age)` with the clamped age.
- The `Infinity` initial values of the best-average locals (`src/lib/interpret.ts:220, 223`) are overwritten before use. The model starts them at the first screening's averages.
- Database access, HTTP form actions, authentication, client fetch wrappers, the dark-mode store, UI strings and type-only files (`src/lib/server`, `src/routes`, `src/lib/actionsmailing.ts`, `src/lib/utility.ts`, `src/lib/client`, `src/lib/clientaccessors.ts`, `src/lib/globals.svelte.ts`, `src/lib/strings.ts`, `src/lib/MyTypes.ts`) are not part of this model: they are I/O or declarations with no logic of the engine.
