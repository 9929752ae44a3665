/**
 Assembly of the single input row handed to the scaler: one column per entry
 of the feature set, the two chosen features set to the entered values, every
 other column filled with the constant 0.
 */
module FeatureVector {
  import opened Wrappers
  import opened Features

  /** The value substituted for every missing (NaN) cell. */
  const FillValue: real := 0.0

  /**
   The value of the column named `f` in the row built from the two selections.
   The second write wins when both selections name the same column.
   */
  function SlotValue(f: string, f1: string, v1: real, f2: string, v2: real): real {
    if f == f2 then v2 else if f == f1 then v1 else FillValue
  }

  /** The row built from the two selections, column by column. */
  function ExpectedRow(f1: string, v1: real, f2: string, v2: real): (r: seq<real>)
    ensures |r| == FeatureCount
    ensures forall k :: 0 <= k < FeatureCount && AllFeatures[k] == f2 ==> r[k] == v2
    ensures forall k :: 0 <= k < FeatureCount && AllFeatures[k] == f1 && f1 != f2 ==> r[k] == v1
    ensures forall k :: 0 <= k < FeatureCount && AllFeatures[k] != f1 && AllFeatures[k] != f2 ==>
      r[k] == FillValue
  {
    seq(FeatureCount, i requires 0 <= i < FeatureCount =>
      SlotValue(AllFeatures[i], f1, v1, f2, v2))
  }

  /** `fillna`: every missing cell becomes `fill`, every present cell is kept. */
  function FillMissing(cells: seq<Option<real>>, fill: real): (r: seq<real>)
    ensures |r| == |cells|
    ensures forall i :: 0 <= i < |cells| && cells[i].None? ==> r[i] == fill
    ensures forall i :: 0 <= i < |cells| && cells[i].Some? ==> r[i] == cells[i].value
  {
    seq(|cells|, i requires 0 <= i < |cells| => cells[i].GetOr(fill))
  }

  /** A row with one NaN cell per feature, in feature-set order. */
  method BlankRow() returns (row: array<Option<real>>)
    ensures fresh(row)
    ensures row.Length == FeatureCount
    ensures forall i :: 0 <= i < row.Length ==> row[i] == None
  {
    row := new Option<real>[FeatureCount];
    for i := 0 to FeatureCount
      invariant forall k :: 0 <= k < i ==> row[k] == None
    {
      row[i] := None;
    }
  }

  /** `row[f] = v`: overwrite the column of `f`, leave every other column alone. */
  method SetColumn(row: array<Option<real>>, f: string, v: real)
    requires row.Length == FeatureCount
    requires f in AllFeatures
    modifies row
    ensures row[..] == old(row[..])[ColumnIndex(f) := Some(v)]
  {
    row[ColumnIndex(f)] := Some(v);
  }

  /** `row.fillna(fill)`: a new row with every NaN cell replaced by `fill`. */
  method FillNa(row: array<Option<real>>, fill: real) returns (filled: array<real>)
    ensures fresh(filled)
    ensures filled[..] == FillMissing(row[..], fill)
  {
    filled := new real[row.Length];
    var i := 0;
    while i < row.Length
      invariant 0 <= i <= row.Length
      invariant forall k :: 0 <= k < i ==> filled[k] == row[k].GetOr(fill)
    {
      filled[i] := match row[i] case Some(v) => v case None => fill;
      i := i + 1;
    }
  }

  /**
   The full request-side assembly: allocate an all-NaN row, write `v1` into the
   column of `f1`, then `v2` into the column of `f2`, then fill with 0.
   */
  method BuildInputRow(f1: string, v1: real, f2: string, v2: real) returns (input: array<real>)
    requires f1 in AllFeatures && f2 in AllFeatures
    ensures fresh(input)
    ensures input.Length == FeatureCount
    ensures input[..] == ExpectedRow(f1, v1, f2, v2)
    ensures input[ColumnIndex(f2)] == v2
    ensures f1 != f2 ==> input[ColumnIndex(f1)] == v1
    ensures forall k :: 0 <= k < FeatureCount && AllFeatures[k] != f1 && AllFeatures[k] != f2 ==>
      input[k] == FillValue
  {
    var row := BlankRow();
    ghost var blank := row[..];
    SetColumn(row, f1, v1);
    SetColumn(row, f2, v2);
    ghost var written := row[..];
    input := FillNa(row, FillValue);
    WrittenRowFilled(blank, written, f1, v1, f2, v2);
  }

  /** Filling a blank row after the two column writes yields `ExpectedRow`. */
  lemma WrittenRowFilled(blank: seq<Option<real>>, written: seq<Option<real>>,
                         f1: string, v1: real, f2: string, v2: real)
    requires f1 in AllFeatures && f2 in AllFeatures
    requires |blank| == FeatureCount
    requires forall k :: 0 <= k < |blank| ==> blank[k] == None
    requires written == blank[ColumnIndex(f1) := Some(v1)][ColumnIndex(f2) := Some(v2)]
    ensures FillMissing(written, FillValue) == ExpectedRow(f1, v1, f2, v2)
  {
    var i1, i2 := ColumnIndex(f1), ColumnIndex(f2);
    var got, want := FillMissing(written, FillValue), ExpectedRow(f1, v1, f2, v2);
    forall k | 0 <= k < FeatureCount
      ensures got[k] == want[k]
    {
      assert AllFeatures[k] == f2 <==> k == i2;
      assert AllFeatures[k] == f1 <==> k == i1;
    }
  }

  /** The row holds `v1` in the column of `f1` and `v2` in that of `f2`, 0 elsewhere. */
  lemma ExpectedRowSlots(f1: string, v1: real, f2: string, v2: real)
    requires f1 in AllFeatures && f2 in AllFeatures && f1 != f2
    ensures ExpectedRow(f1, v1, f2, v2)[ColumnIndex(f1)] == v1
    ensures ExpectedRow(f1, v1, f2, v2)[ColumnIndex(f2)] == v2
    ensures forall k :: 0 <= k < FeatureCount && k != ColumnIndex(f1) && k != ColumnIndex(f2) ==>
      ExpectedRow(f1, v1, f2, v2)[k] == FillValue
  {
  }

  /** Exchanging the two selections, each with its value, builds the same row. */
  lemma ExpectedRowOrderIndependent(f1: string, v1: real, f2: string, v2: real)
    requires f1 != f2
    ensures ExpectedRow(f1, v1, f2, v2) == ExpectedRow(f2, v2, f1, v1)
  {
  }

  /** With the same column chosen twice, only the second value survives. */
  lemma ExpectedRowSameColumn(f: string, v1: real, v2: real)
    requires f in AllFeatures
    ensures ExpectedRow(f, v1, f, v2)[ColumnIndex(f)] == v2
    ensures forall k :: 0 <= k < FeatureCount && k != ColumnIndex(f) ==>
      ExpectedRow(f, v1, f, v2)[k] == FillValue
  {
  }

  /** Tempo 120 and energy 0.8: 120 in column 7, 0.8 in column 2, 0 in the other eight. */
  lemma TempoEnergyExample()
    ensures ExpectedRow("tempo", 120.0, "energy", 0.8) ==
      [0.0, 0.0, 0.8, 0.0, 0.0, 0.0, 0.0, 120.0, 0.0, 0.0]
  {
  }
}
