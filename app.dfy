/** One run of the predictor page: fill the form, build the input table,
    and, when the button is pressed, report the headline energy and the
    24-hour trend. */
module App {
  import opened Features
  import opened Inputs
  import opened Frames
  import opened Trend

  datatype Option<T> = None | Some(value: T)

  /** What the page shows after the button is pressed: the headline energy
      in Wh, and the trend chart's x values (hours) and y values (Wh). */
  datatype Report = Report(energy: real, hours: seq<int>, trend: seq<real>)

  /** The input table the form over the display table produces. */
  function InputFrame(widget: Widget): Frame {
    FromRecord(Collected(FeatureDisplay(), widget))
  }

  /** The form's input table has one row and the table's eighteen column
      names in order, and its row holds a value for every column. */
  lemma InputFrameShape(widget: Widget)
    ensures |InputFrame(widget).rows| == 1
    ensures InputFrame(widget).columns == ModelColumns()
    ensures forall c :: c in InputFrame(widget).rows[0] <==> c in ModelColumns()
  {
    var d := Collected(FeatureDisplay(), widget);
    ColumnNamesDistinct();
    CollectedKeys(FeatureDisplay(), widget);
    DisplayInputColumns(widget);
    assert InputFrame(widget) == Frame(d.keys, [d.values]);
  }

  /** When the widgets keep to their kinds, the input row's hour is a whole
      number of at least 0. */
  lemma InputHourWhole(widget: Widget)
    requires Honours(widget)
    ensures |InputFrame(widget).rows| == 1
    ensures HourName in InputFrame(widget).rows[0]
    ensures InputFrame(widget).rows[0][HourName].Whole? && InputFrame(widget).rows[0][HourName].n >= 0
  {
    var schema := FeatureDisplay();
    ColumnNamesDistinct();
    HourEntry();
    assert schema[9].name == HourName;
    CollectedKind(schema, widget, 9, HourName);
  }

  /** The page: the sidebar loop, `pd.DataFrame([user_input])`, and, when
      the button is pressed, the single prediction and the 24-hour trend. */
  method Run(widget: Widget, pressed: bool, model: Model, pow2: Exp2) returns (report: Option<Report>)
    ensures report.Some? <==> pressed
    ensures report.Some? ==> |InputFrame(widget).rows| == 1
    ensures report.Some? ==> report.value.energy == Energy(InputFrame(widget), model, pow2)
    ensures report.Some? ==> report.value.hours == Hours()
    ensures report.Some? ==>
              report.value.trend == TrendPredictions(SweepFrame(InputFrame(widget)), model, pow2)
  {
    var userInput := CollectInput(FeatureDisplay(), widget);
    var inputDf := new DataFrame.FromRecords(userInput);
    if !pressed {
      return None;
    }
    var energy := pow2(model(inputDf.Snapshot()));
    var hours := Hours();
    var trendDf := BuildTrendFrame(inputDf);
    var preds := TrendPredictions(trendDf.Snapshot(), model, pow2);
    report := Some(Report(energy, hours, preds));
  }

  /** A pressed run's chart has 24 points, one per hour 0..23; when the
      entered hour lies in 0..23, the chart's point at that hour is exactly
      the headline energy. */
  lemma ReportConsistent(widget: Widget, model: Model, pow2: Exp2)
    ensures |InputFrame(widget).rows| == 1
    ensures |TrendPredictions(SweepFrame(InputFrame(widget)), model, pow2)| == |Hours()| == 24
    ensures HourName in InputFrame(widget).rows[0]
    ensures var v := InputFrame(widget).rows[0][HourName];
            v.Whole? && 0 <= v.n < 24 ==>
              TrendPredictions(SweepFrame(InputFrame(widget)), model, pow2)[v.n] ==
              Energy(InputFrame(widget), model, pow2)
  {
    InputFrameShape(widget);
    var base := InputFrame(widget);
    assert HourName in ModelColumns();
    var v := base.rows[0][HourName];
    if v.Whole? && 0 <= v.n < 24 {
      TrendAtEnteredHour(base, model, pow2, v.n);
    }
  }
}
