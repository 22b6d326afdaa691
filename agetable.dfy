/**
 * The static age-correction tables: for each sex, one row per whole year of
 * age from 20 to 60 giving the decibels of hearing loss expected from age
 * alone at 1000, 2000, 3000, 4000 and 6000 Hz.
 */
module AgeTable {
  import opened Wrappers

  /** One table row. There is no 500 Hz or 8000 Hz column: those bands are never age-corrected. */
  datatype AgeCorrection = AgeCorrection(age: int, hz1000: int, hz2000: int, hz3000: int, hz4000: int, hz6000: int)

  /** The youngest and oldest age with a row in either table. */
  const FirstAge := 20
  const LastAge := 60

  const MaleAges20To29: seq<AgeCorrection> := [
    AgeCorrection(20, 5, 3, 4, 5, 8),
    AgeCorrection(21, 5, 3, 4, 5, 8),
    AgeCorrection(22, 5, 3, 4, 5, 8),
    AgeCorrection(23, 5, 3, 4, 6, 9),
    AgeCorrection(24, 5, 3, 5, 6, 9),
    AgeCorrection(25, 5, 3, 5, 7, 10),
    AgeCorrection(26, 5, 4, 5, 7, 10),
    AgeCorrection(27, 5, 4, 6, 7, 11),
    AgeCorrection(28, 6, 4, 6, 8, 11),
    AgeCorrection(29, 6, 4, 6, 8, 12)
  ]

  const MaleAges30To39: seq<AgeCorrection> := [
    AgeCorrection(30, 6, 4, 6, 9, 12),
    AgeCorrection(31, 6, 4, 7, 9, 13),
    AgeCorrection(32, 6, 5, 7, 10, 14),
    AgeCorrection(33, 6, 5, 7, 10, 14),
    AgeCorrection(34, 6, 5, 8, 11, 15),
    AgeCorrection(35, 7, 5, 8, 11, 15),
    AgeCorrection(36, 7, 5, 9, 12, 16),
    AgeCorrection(37, 7, 6, 9, 12, 17),
    AgeCorrection(38, 7, 6, 9, 13, 17),
    AgeCorrection(39, 7, 6, 10, 14, 18)
  ]

  const MaleAges40To49: seq<AgeCorrection> := [
    AgeCorrection(40, 7, 6, 10, 14, 19),
    AgeCorrection(41, 7, 6, 10, 14, 20),
    AgeCorrection(42, 8, 7, 11, 16, 20),
    AgeCorrection(43, 8, 7, 12, 16, 21),
    AgeCorrection(44, 8, 7, 12, 17, 22),
    AgeCorrection(45, 8, 7, 13, 18, 23),
    AgeCorrection(46, 8, 8, 13, 19, 24),
    AgeCorrection(47, 8, 8, 14, 19, 24),
    AgeCorrection(48, 9, 8, 14, 20, 25),
    AgeCorrection(49, 9, 9, 15, 21, 26)
  ]

  const MaleAges50To60: seq<AgeCorrection> := [
    AgeCorrection(50, 9, 9, 16, 22, 27),
    AgeCorrection(51, 9, 9, 16, 23, 28),
    AgeCorrection(52, 9, 10, 17, 24, 29),
    AgeCorrection(53, 9, 10, 18, 25, 30),
    AgeCorrection(54, 10, 10, 18, 26, 31),
    AgeCorrection(55, 10, 11, 19, 27, 32),
    AgeCorrection(56, 10, 11, 20, 28, 34),
    AgeCorrection(57, 10, 11, 21, 29, 35),
    AgeCorrection(58, 10, 12, 22, 31, 36),
    AgeCorrection(59, 11, 12, 22, 32, 37),
    AgeCorrection(60, 11, 13, 23, 33, 38)
  ]

  const MaleTable: seq<AgeCorrection> := MaleAges20To29 + MaleAges30To39 + MaleAges40To49 + MaleAges50To60

  const FemaleAges20To29: seq<AgeCorrection> := [
    AgeCorrection(20, 7, 4, 3, 3, 6),
    AgeCorrection(21, 7, 4, 4, 3, 6),
    AgeCorrection(22, 7, 4, 4, 4, 6),
    AgeCorrection(23, 7, 5, 4, 4, 7),
    AgeCorrection(24, 7, 5, 4, 4, 7),
    AgeCorrection(25, 8, 5, 4, 4, 7),
    AgeCorrection(26, 8, 5, 5, 4, 8),
    AgeCorrection(27, 8, 5, 5, 5, 8),
    AgeCorrection(28, 8, 5, 5, 5, 8),
    AgeCorrection(29, 8, 5, 5, 5, 9)
  ]

  const FemaleAges30To39: seq<AgeCorrection> := [
    AgeCorrection(30, 8, 6, 5, 5, 9),
    AgeCorrection(31, 8, 6, 6, 5, 9),
    AgeCorrection(32, 9, 6, 6, 6, 10),
    AgeCorrection(33, 9, 6, 6, 6, 10),
    AgeCorrection(34, 9, 6, 6, 6, 10),
    AgeCorrection(35, 9, 6, 7, 7, 11),
    AgeCorrection(36, 9, 7, 7, 7, 11),
    AgeCorrection(37, 9, 7, 7, 7, 12),
    AgeCorrection(38, 10, 7, 7, 7, 12),
    AgeCorrection(39, 10, 7, 8, 8, 12)
  ]

  const FemaleAges40To49: seq<AgeCorrection> := [
    AgeCorrection(40, 10, 7, 8, 8, 13),
    AgeCorrection(41, 10, 8, 8, 8, 13),
    AgeCorrection(42, 10, 8, 9, 9, 13),
    AgeCorrection(43, 11, 8, 9, 9, 14),
    AgeCorrection(44, 11, 8, 9, 9, 14),
    AgeCorrection(45, 11, 8, 10, 10, 15),
    AgeCorrection(46, 11, 9, 10, 10, 15),
    AgeCorrection(47, 11, 9, 10, 11, 16),
    AgeCorrection(48, 12, 9, 11, 11, 16),
    AgeCorrection(49, 12, 9, 11, 11, 16)
  ]

  const FemaleAges50To60: seq<AgeCorrection> := [
    AgeCorrection(50, 12, 10, 11, 12, 17),
    AgeCorrection(51, 12, 10, 12, 12, 17),
    AgeCorrection(52, 12, 10, 12, 13, 18),
    AgeCorrection(53, 13, 10, 13, 13, 18),
    AgeCorrection(54, 13, 11, 13, 14, 19),
    AgeCorrection(55, 13, 11, 14, 14, 19),
    AgeCorrection(56, 13, 11, 14, 15, 20),
    AgeCorrection(57, 13, 11, 15, 15, 20),
    AgeCorrection(58, 14, 12, 15, 16, 21),
    AgeCorrection(59, 14, 12, 16, 16, 21),
    AgeCorrection(60, 14, 12, 16, 17, 22)
  ]

  const FemaleTable: seq<AgeCorrection> := FemaleAges20To29 + FemaleAges30To39 + FemaleAges40To49 + FemaleAges50To60

  /** Row k holds age FirstAge + k, for every age up to LastAge and no other. */
  ghost predicate RowsByAge(table: seq<AgeCorrection>)
  {
    && |table| == LastAge - FirstAge + 1
    && forall k :: 0 <= k < |table| ==> table[k].age == FirstAge + k
  }

  /** The male table has 41 rows, for the ages 20, 21, ..., 60 in increasing order. */
  lemma MaleTableRowsByAge()
    ensures RowsByAge(MaleTable)
  {
  }

  /** The female table has 41 rows, for the ages 20, 21, ..., 60 in increasing order. */
  lemma FemaleTableRowsByAge()
    ensures RowsByAge(FemaleTable)
  {
  }

  /** The five corrected bands, naming the columns of a row. */
  datatype Column = Col1000 | Col2000 | Col3000 | Col4000 | Col6000

  function Cell(row: AgeCorrection, c: Column): int
  {
    match c
    case Col1000 => row.hz1000
    case Col2000 => row.hz2000
    case Col3000 => row.hz3000
    case Col4000 => row.hz4000
    case Col6000 => row.hz6000
  }

  ghost predicate ColumnNonDecreasing(table: seq<AgeCorrection>, c: Column)
  {
    forall k :: 0 <= k < |table| - 1 ==> Cell(table[k], c) <= Cell(table[k + 1], c)
  }

  /** Two non-decreasing runs of rows, the first ending no higher than the second starts, join into one. */
  lemma ColumnsJoin(a: seq<AgeCorrection>, b: seq<AgeCorrection>, c: Column)
    requires ColumnNonDecreasing(a, c) && ColumnNonDecreasing(b, c)
    requires |a| > 0 && |b| > 0 && Cell(a[|a| - 1], c) <= Cell(b[0], c)
    ensures ColumnNonDecreasing(a + b, c)
  {
    forall k | 0 <= k < |a + b| - 1
      ensures Cell((a + b)[k], c) <= Cell((a + b)[k + 1], c)
    {
      if k + 1 < |a| {
        assert (a + b)[k] == a[k] && (a + b)[k + 1] == a[k + 1];
      } else if k + 1 == |a| {
        assert (a + b)[k] == a[k] && (a + b)[k + 1] == b[0];
      } else {
        assert (a + b)[k] == b[k - |a|] && (a + b)[k + 1] == b[k - |a| + 1];
      }
    }
  }

  /** Each decade of the male table is non-decreasing in every column. */
  lemma MaleBlocksNonDecreasing(c: Column)
    ensures ColumnNonDecreasing(MaleAges20To29, c) && ColumnNonDecreasing(MaleAges30To39, c)
    ensures ColumnNonDecreasing(MaleAges40To49, c) && ColumnNonDecreasing(MaleAges50To60, c)
  {
  }

  /** In the male table every column is non-decreasing as age increases. */
  lemma MaleColumnsNonDecreasing(c: Column)
    ensures ColumnNonDecreasing(MaleTable, c)
  {
    var a, b, c', d := MaleAges20To29, MaleAges30To39, MaleAges40To49, MaleAges50To60;
    MaleBlocksNonDecreasing(c);
    ColumnsJoin(a, b, c);
    ColumnsJoin(a + b, c', c);
    ColumnsJoin(a + b + c', d, c);
  }

  /** Each decade of the female table is non-decreasing in every column. */
  lemma FemaleBlocksNonDecreasing(c: Column)
    ensures ColumnNonDecreasing(FemaleAges20To29, c) && ColumnNonDecreasing(FemaleAges30To39, c)
    ensures ColumnNonDecreasing(FemaleAges40To49, c) && ColumnNonDecreasing(FemaleAges50To60, c)
  {
  }

  /** In the female table every column is non-decreasing as age increases. */
  lemma FemaleColumnsNonDecreasing(c: Column)
    ensures ColumnNonDecreasing(FemaleTable, c)
  {
    var a, b, c', d := FemaleAges20To29, FemaleAges30To39, FemaleAges40To49, FemaleAges50To60;
    FemaleBlocksNonDecreasing(c);
    ColumnsJoin(a, b, c);
    ColumnsJoin(a + b, c', c);
    ColumnsJoin(a + b + c', d, c);
  }

  /** Adjacent rows in order give any two rows in order. */
  lemma {:induction false} ColumnOrdered(table: seq<AgeCorrection>, c: Column, i: int, j: int)
    requires ColumnNonDecreasing(table, c)
    requires 0 <= i <= j < |table|
    ensures Cell(table[i], c) <= Cell(table[j], c)
  {
    if i < j {
      ColumnOrdered(table, c, i, j - 1);
    }
  }

  /** Every correction in the male table is at least 3 dB. */
  lemma MaleCorrectionsAtLeastThree(c: Column)
    ensures forall k :: 0 <= k < |MaleTable| ==> Cell(MaleTable[k], c) >= 3
  {
    match c
    case Col1000 =>
    case Col2000 =>
    case Col3000 =>
    case Col4000 =>
    case Col6000 =>
  }

  /** Every correction in the female table is at least 3 dB. */
  lemma FemaleCorrectionsAtLeastThree(c: Column)
    ensures forall k :: 0 <= k < |FemaleTable| ==> Cell(FemaleTable[k], c) >= 3
  {
    match c
    case Col1000 =>
    case Col2000 =>
    case Col3000 =>
    case Col4000 =>
    case Col6000 =>
  }

  /**
   * Array.prototype.find by age: the first row whose age matches, or
   * None (JavaScript's undefined) when there is none.
   */
  function Find(table: seq<AgeCorrection>, age: int): (r: Option<AgeCorrection>)
    ensures r.None? <==> forall k :: 0 <= k < |table| ==> table[k].age != age
    ensures r.Some? ==> exists k :: 0 <= k < |table| && table[k] == r.value && r.value.age == age
                                    && forall j :: 0 <= j < k ==> table[j].age != age
  {
    if |table| == 0 then None
    else if table[0].age == age then Some(table[0])
    else
      var rest := Find(table[1..], age);
      assert forall k :: 1 <= k < |table| ==> table[k] == table[1..][k - 1];
      rest
  }

  /**
   * In a table laid out by age a lookup finds exactly the row at offset
   * age - FirstAge, and fails for every age outside FirstAge..LastAge.
   */
  lemma {:induction false} FindByAge(table: seq<AgeCorrection>, age: int)
    requires RowsByAge(table)
    ensures FirstAge <= age <= LastAge ==> Find(table, age) == Some(table[age - FirstAge])
    ensures age < FirstAge || LastAge < age ==> Find(table, age) == None
  {
    if FirstAge <= age <= LastAge {
      assert table[age - FirstAge].age == age;
    }
  }

  /** Spot values: the row of a 30-year-old man and of a 60-year-old woman. */
  lemma SpotValues()
    ensures MaleTable[30 - FirstAge] == AgeCorrection(30, 6, 4, 6, 9, 12)
    ensures FemaleTable[60 - FirstAge] == AgeCorrection(60, 14, 12, 16, 17, 22)
  {
  }
}
