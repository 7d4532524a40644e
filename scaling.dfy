/**
 * Selective scaling: the six NUMERICAL_FEATURES columns of the assembled
 * vector are replaced by the output of the pre-fitted scaler, matched by
 * name; the other fourteen columns keep their values.
 */
module Scaling {
  import opened Outcomes
  import opened Features

  /** The pre-fitted scaler's transform. Its internals are not modelled: it may be any function. */
  type Scaler = seq<real> -> seq<real>

  /** The cells of `row` at the positions `cols`, in the order of `cols`. */
  function Gather(row: seq<real>, cols: seq<nat>): seq<real>
    requires forall i :: 0 <= i < |cols| ==> cols[i] < |row|
  {
    seq(|cols|, i requires 0 <= i < |cols| => row[cols[i]])
  }

  /** `row` after writing `vals[i]` into position `cols[i]`, for each i in turn. */
  function Scatter(row: seq<real>, cols: seq<nat>, vals: seq<real>): (r: seq<real>)
    requires |vals| == |cols|
    requires forall i :: 0 <= i < |cols| ==> cols[i] < |row|
    ensures |r| == |row|
    decreases |cols|
  {
    if cols == [] then row
    else
      var n := |cols| - 1;
      Scatter(row, cols[..n], vals[..n])[cols[n] := vals[n]]
  }

  /** With distinct target positions, position cols[i] ends up holding vals[i]. */
  lemma {:induction false} ScatterWrites(row: seq<real>, cols: seq<nat>, vals: seq<real>, i: nat)
    requires |vals| == |cols| && Distinct(cols)
    requires forall k :: 0 <= k < |cols| ==> cols[k] < |row|
    requires i < |cols|
    ensures Scatter(row, cols, vals)[cols[i]] == vals[i]
    decreases |cols|
  {
    var n := |cols| - 1;
    if i < n {
      ScatterWrites(row, cols[..n], vals[..n], i);
    }
  }

  /** A position that is not a target keeps its value. */
  lemma {:induction false} ScatterKeeps(row: seq<real>, cols: seq<nat>, vals: seq<real>, j: nat)
    requires |vals| == |cols|
    requires forall k :: 0 <= k < |cols| ==> cols[k] < |row|
    requires j < |row| && j !in cols
    ensures Scatter(row, cols, vals)[j] == row[j]
    decreases |cols|
  {
    if cols != [] {
      var n := |cols| - 1;
      assert cols[n] in cols;
      assert j !in cols[..n] by {
        forall k | 0 <= k < n ensures cols[..n][k] != j {
          assert cols[k] in cols;
        }
      }
      ScatterKeeps(row, cols[..n], vals[..n], j);
    }
  }

  /**
   * The scaling step on a row in FEATURE_LIST order: the NUMERICAL_FEATURES
   * cells go to the scaler, and its output, when it has one value per
   * column, is written back column by column.
   */
  function ScaleRow(row: seq<real>, scale: Scaler): Result<seq<real>>
    requires |row| == |FeatureList|
  {
    var out := scale(Gather(row, NumericalPositions));
    if |out| != |NumericalPositions| then Failure(TransformFailure)
    else Success(Scatter(row, NumericalPositions, out))
  }

  /** The six target positions are distinct. */
  lemma NumericalPositionsDistinct()
    ensures Distinct(NumericalPositions)
  {
  }

  /** Matching NUMERICAL_FEATURES[i] by name in FEATURE_LIST finds position NumericalPositions[i]. */
  lemma NumericalIndex(i: nat)
    requires i < |NumericalFeatures|
    ensures IndexOf(FeatureList, NumericalFeatures[i]) == Some(NumericalPositions[i])
  {
    NumericalColumnsPresent();
    var k := IndexOf(FeatureList, NumericalFeatures[i]).value;
    FeatureListPositionUnique(k, NumericalPositions[i]);
  }

  /**
   * The scaler is fed the NUMERICAL_FEATURES cells, found by name, in
   * NUMERICAL_FEATURES order; scaling fails exactly when it returns a number
   * of values other than the number of those columns.
   */
  lemma ScalerFedByName(row: seq<real>, scale: Scaler)
    requires |row| == |FeatureList|
    ensures forall i :: 0 <= i < |NumericalFeatures| ==>
              Gather(row, NumericalPositions)[i] == row[IndexOf(FeatureList, NumericalFeatures[i]).value]
    ensures ScaleRow(row, scale).Success? <==> |scale(Gather(row, NumericalPositions))| == |NumericalFeatures|
    ensures ScaleRow(row, scale).Failure? ==> ScaleRow(row, scale).error == TransformFailure
  {
    forall i | 0 <= i < |NumericalFeatures|
      ensures IndexOf(FeatureList, NumericalFeatures[i]).value == NumericalPositions[i]
    {
      NumericalIndex(i);
    }
  }

  /** On success, the column named NUMERICAL_FEATURES[i] holds the scaler's i-th output value. */
  lemma ScaledColumnsTakeOutput(row: seq<real>, scale: Scaler)
    requires |row| == |FeatureList| && ScaleRow(row, scale).Success?
    ensures |ScaleRow(row, scale).value| == |FeatureList|
    ensures forall i, j ::
              0 <= i < |NumericalFeatures| && 0 <= j < |FeatureList| && FeatureList[j] == NumericalFeatures[i]
              ==> ScaleRow(row, scale).value[j] == scale(Gather(row, NumericalPositions))[i]
  {
    NumericalColumnsPresent();
    NumericalPositionsDistinct();
    var out := scale(Gather(row, NumericalPositions));
    forall i, j | 0 <= i < |NumericalFeatures| && 0 <= j < |FeatureList| && FeatureList[j] == NumericalFeatures[i]
      ensures Scatter(row, NumericalPositions, out)[j] == out[i]
    {
      FeatureListPositionUnique(j, NumericalPositions[i]);
      ScatterWrites(row, NumericalPositions, out, i);
    }
  }

  /** On success, every column not named in NUMERICAL_FEATURES keeps its value. */
  lemma OtherColumnsKept(row: seq<real>, scale: Scaler)
    requires |row| == |FeatureList| && ScaleRow(row, scale).Success?
    ensures forall j :: 0 <= j < |FeatureList| && FeatureList[j] !in NumericalFeatures ==>
              ScaleRow(row, scale).value[j] == row[j]
  {
    NumericalColumnsPresent();
    var out := scale(Gather(row, NumericalPositions));
    forall j | 0 <= j < |FeatureList| && FeatureList[j] !in NumericalFeatures
      ensures Scatter(row, NumericalPositions, out)[j] == row[j]
    {
      assert j !in NumericalPositions by {
        forall i | 0 <= i < |NumericalPositions| ensures NumericalPositions[i] != j {
          assert NumericalFeatures[i] in NumericalFeatures;
        }
      }
      ScatterKeeps(row, NumericalPositions, out, j);
    }
  }

  /**
   * input_df[NUMERICAL_FEATURES] = scaler.transform(input_df[NUMERICAL_FEATURES])
   * on the twenty-slot vector `v`: on success `v` holds the scaled row; when
   * the scaler's output has the wrong width nothing is written.
   */
  method ScaleInPlace(v: array<real>, scale: Scaler) returns (r: Result<()>)
    requires v.Length == |FeatureList|
    modifies v
    ensures r.Success? <==> ScaleRow(old(v[..]), scale).Success?
    ensures r.Success? ==> v[..] == ScaleRow(old(v[..]), scale).value
    ensures r.Failure? ==> r.error == TransformFailure && v[..] == old(v[..])
  {
    var out := scale(Gather(v[..], NumericalPositions));
    if |out| != |NumericalPositions| {
      return Failure(TransformFailure);
    }
    ghost var row := v[..];
    for i := 0 to |NumericalPositions|
      invariant v[..] == Scatter(row, NumericalPositions[..i], out[..i])
    {
      assert NumericalPositions[..i + 1][..i] == NumericalPositions[..i];
      assert out[..i + 1][..i] == out[..i];
      v[NumericalPositions[i]] := out[i];
    }
    assert NumericalPositions[..|NumericalPositions|] == NumericalPositions;
    assert out[..|out|] == out;
    r := Success(());
  }
}
