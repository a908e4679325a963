/** The predictions: the headline energy for the entered features, and the
    24-hour trend obtained by sweeping the hour column of a copy of the
    input over 0..23 while keeping every other feature as entered. */
module Trend {
  import opened Features
  import opened Inputs
  import opened Frames

  /** The trained regressor: its prediction for the first row of a table,
      on the log2 scale it was trained on (`model.predict(df)[0]`). */
  type Model = Frame -> real

  /** Floating-point `2 ** x`, which turns a log2 prediction into Wh. */
  type Exp2 = real -> real

  /** The column the sweep overwrites. */
  const HourName := "hour"

  /** `list(range(24))`. */
  function Hours(): seq<int>
  {
    seq(24, i => i)
  }

  /** The hour column the sweep writes, as the ints of `Hours()`. */
  function HourValues(): (vs: seq<Value>)
    ensures |vs| == 24
    ensures forall i :: 0 <= i < 24 ==> vs[i] == Whole(Hours()[i])
  {
    seq(24, i requires 0 <= i < 24 => Whole(Hours()[i]))
  }

  /** Predicted energy in Wh for a table: `2 ** model.predict(df)[0]`. */
  function Energy(df: Frame, model: Model, pow2: Exp2): real {
    pow2(model(df))
  }

  /** `concat([df] * 24)` followed by `trend['hour'] = hours`. */
  function SweepFrame(base: Frame): (trend: Frame)
    requires |base.rows| == 1
    ensures |trend.rows| == 24
  {
    ConcatCopies(base, 24);
    ConcatAll(seq(24, _ => base)).WithColumn(HourName, HourValues())
  }

  /** `[2 ** model.predict(trend.iloc[[i]])[0] for i in range(24)]`. */
  function TrendPredictions(trend: Frame, model: Model, pow2: Exp2): seq<real>
    requires |trend.rows| >= 24
  {
    seq(24, i requires 0 <= i < 24 => Energy(trend.Take(i), model, pow2))
  }

  /** The sweep has 24 rows; row `i` is the entered row with the hour set
      to `i`, so every other feature keeps its entered value; the columns
      are the input's, with `hour` appended only if it was missing. */
  lemma SweepRows(base: Frame)
    requires |base.rows| == 1
    ensures |SweepFrame(base).rows| == 24
    ensures SweepFrame(base).columns ==
              if HourName in base.columns then base.columns else base.columns + [HourName]
    ensures forall i :: 0 <= i < 24 ==> SweepFrame(base).rows[i] == base.rows[0][HourName := Whole(i)]
  {
    ConcatCopies(base, 24);
    RepeatSingle(base.rows[0], 24);
    assert base.rows == [base.rows[0]];
  }

  /** Row `i` of the sweep has hour `i`, and agrees with the entered row
      on every other column. */
  lemma SweepKeepsOtherFeatures(base: Frame)
    requires |base.rows| == 1
    ensures forall i :: 0 <= i < 24 ==>
              HourName in SweepFrame(base).rows[i] && SweepFrame(base).rows[i][HourName] == Whole(i)
    ensures forall i, c :: 0 <= i < 24 && c != HourName ==>
              (c in SweepFrame(base).rows[i] <==> c in base.rows[0])
    ensures forall i, c :: 0 <= i < 24 && c != HourName && c in base.rows[0] ==>
              SweepFrame(base).rows[i][c] == base.rows[0][c]
  {
    SweepRows(base);
  }

  /** Trend entry `i` is the energy the model predicts for the entered
      features with the hour set to `i`. */
  lemma TrendEntries(base: Frame, model: Model, pow2: Exp2)
    requires |base.rows| == 1
    ensures |SweepFrame(base).rows| == 24
    ensures forall i :: 0 <= i < 24 ==>
              TrendPredictions(SweepFrame(base), model, pow2)[i] ==
              Energy(Frame(SweepFrame(base).columns, [base.rows[0][HourName := Whole(i)]]), model, pow2)
  {
    SweepRows(base);
  }

  /** Where the entered hour lies in 0..23, the trend at that hour is the
      headline prediction: the two are made by the same model and the same
      transform from the same row. */
  lemma TrendAtEnteredHour(base: Frame, model: Model, pow2: Exp2, h: int)
    requires |base.rows| == 1
    requires HourName in base.columns
    requires HourName in base.rows[0] && base.rows[0][HourName] == Whole(h)
    requires 0 <= h < 24
    ensures |SweepFrame(base).rows| == 24
    ensures TrendPredictions(SweepFrame(base), model, pow2)[h] == Energy(base, model, pow2)
  {
    SweepRows(base);
    TrendEntries(base, model, pow2);
    var row := base.rows[0];
    assert row[HourName := Whole(h)] == row;
    assert base == Frame(base.columns, [row]);
  }

  /** The trend does not depend on the entered hour: two inputs with the
      same columns that agree on every feature other than the hour give the
      same 24 predictions. */
  lemma TrendIgnoresEnteredHour(a: Frame, b: Frame, model: Model, pow2: Exp2)
    requires |a.rows| == 1 && |b.rows| == 1
    requires a.columns == b.columns
    requires forall c :: c != HourName ==> (c in a.rows[0] <==> c in b.rows[0])
    requires forall c :: c != HourName && c in a.rows[0] ==> a.rows[0][c] == b.rows[0][c]
    ensures |SweepFrame(a).rows| == 24 && |SweepFrame(b).rows| == 24
    ensures TrendPredictions(SweepFrame(a), model, pow2) == TrendPredictions(SweepFrame(b), model, pow2)
  {
    SweepRows(a);
    SweepRows(b);
    forall i | 0 <= i < 24
      ensures SweepFrame(a).rows[i] == SweepFrame(b).rows[i]
    {
      assert a.rows[0][HourName := Whole(i)] == b.rows[0][HourName := Whole(i)];
    }
    assert SweepFrame(a) == SweepFrame(b);
  }

  /** The trend table: 24 copies of the input with the hour column
      overwritten in place; the input DataFrame itself is left as entered. */
  method BuildTrendFrame(inputDf: DataFrame) returns (trend: DataFrame)
    requires |inputDf.rows| == 1
    ensures fresh(trend)
    ensures unchanged(inputDf)
    ensures trend.Snapshot() == SweepFrame(inputDf.Snapshot())
  {
    var hours := Hours();
    var copies := seq(24, _ => inputDf);
    trend := DataFrame.Concat(copies);
    var base := inputDf.Snapshot();
    assert Snapshots(copies) == seq(24, _ => base);
    ConcatCopies(base, 24);
    trend.SetColumn(HourName, seq(24, i requires 0 <= i < 24 => Whole(hours[i])));
    assert seq(24, i requires 0 <= i < 24 => Whole(hours[i])) == HourValues();
  }
}
