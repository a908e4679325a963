# Household energy predictor — Dafny model

A Streamlit page predicts household energy use in Wh. The user enters eighteen
features, one number widget per feature. The page runs a trained regressor that
predicts `log2` of the energy and reports `2 ** prediction`. It then draws a
24-hour trend by predicting, for each hour 0..23, the energy of a copy of the
input whose `hour` feature is set to that hour.

This project models the core of that page:

- the feature table (sidebar label → model column);
- the label rule choosing between a whole-number widget and a decimal widget;
- the sidebar loop that fills an insertion-ordered dictionary;
- the one-row input table built from that dictionary;
- the single prediction;
- the 24-hour sweep: concatenate 24 copies of the input, overwrite the `hour`
  column in place, and predict row by row.

Modules:

- `Features` (`features.dfy`): the table, Python's substring test, the kind rule.
- `Inputs` (`inputs.dfy`): widget values, the ordered dictionary, the sidebar loop.
- `Frames` (`frames.dfy`): tables as values (`Frame`) and the mutable `DataFrame`
  class, with building from a record, concatenation, row selection and column
  assignment.
- `Trend` (`trend.dfy`): the single prediction, the sweep table, the trend list.
- `App` (`app.dfy`): one run of the page.

The regressor, the widget and `2 ** x` are parameters:

- `Model = Frame -> real` stands for `model.predict(df)[0]`.
- `Widget = (string, Kind) -> Value` stands for `st.sidebar.number_input`.
- `Exp2 = real -> real` stands for floating-point `2 ** x`.

A table row is a map from column name to value; a column missing from a row's
map is a missing value.

`app.py` raises no errors of its own. Every feature comes from a widget, and a
failing `predict` is not caught, so the model has no error results. The one
error the page can meet on its own path, the `OverflowError` that Python's
float `**` raises on app.py:62 for a prediction of 1024 or more, lies in
floating point and is not modelled (see "## Left out"). Where
pandas itself refuses an input, the model has a precondition instead; each such
precondition is listed under "## Left out". None of them can fail on the page's
own path: the input table always has one row, and the sweep always has 24.

## Model

| member | source | states |
|---|---|---|
| Features.FeatureDisplay | app.py:25-44 | the display table has exactly 18 entries |
| Features.LabelsDistinct | app.py:25-44 | the 18 sidebar labels are pairwise distinct, so the dictionary literal keeps all 18 entries |
| Features.ColumnNames | app.py:25-44 | the table's column names are exactly these 18 names, in table order |
| Features.ColumnNamesDistinct | app.py:25-44 | no two labels map to the same column, so the input dictionary loses no entry |
| Features.ContainsIff | app.py:50 | the substring test holds iff `sub` occurs as a contiguous slice of `s` at some position (Python's `in` on strings) |
| Features.Absent | app.py:50 | a string with no match at any position does not contain the substring |
| Features.IntegerKindBlock | app.py:50-53 | entry i's label contains "Day", "Hour" or "Month" iff 6 <= i < 10, so exactly those four entries get a whole-number widget |
| Features.IntegerColumnsBlock | app.py:49-53 | if the whole-number labels are exactly one contiguous block of the table, the whole-number columns are exactly that block's names, in order |
| Features.IntegerColumnsOfDisplay | app.py:49-53 | the display table's whole-number columns are its entries 6 to 9 |
| Features.IntegerNamesOfDisplay | app.py:32-35 | entries 6 to 9 name the columns day_of_month, day_of_week, month and hour |
| Features.FourIntegerFeatures | app.py:49-53 | the whole-number columns are exactly day_of_month, day_of_week, month and hour, in that order; all others are decimals |
| Inputs.AssignValid | app.py:51-53 | `d[k] = v` keeps the key order duplicate-free and in step with the map, stores v under k, leaves other keys alone, keeps an existing key in place and appends a new one |
| Inputs.CollectInput | app.py:48-53 | the loop's dictionary is the fold of the table; with distinct names its keys are the names in table order and each column holds its own entry's widget answer for that entry's kind |
| Inputs.CollectedKeys | app.py:48-53 | with distinct names, the filled dictionary is well formed and its key order is the column names in table order |
| Inputs.CollectedValues | app.py:48-53 | with distinct names, every column is present and holds the answer its own label's widget gave |
| Inputs.CollectedKind | app.py:50-53 | with distinct names and a widget that keeps to its kind, a whole-number column holds an int of at least 0 and any other column holds a float |
| Inputs.DisplayInputColumns | app.py:48-53 | the form over the display table fills exactly the table's 18 column names, in order |
| Inputs.DisplayInputKinds | app.py:48-53 | over the display table, columns 6 to 9 hold ints of at least 0 and the other fourteen hold floats |
| Frames.DataFrame.FromRecords | app.py:56 | `pd.DataFrame([user_input])` has the dictionary's keys as columns, in order, and one row holding its values |
| Frames.UnionKnownColumns | app.py:84 | concatenating tables whose columns are already present adds no column |
| Frames.UnionColumnsMembers | app.py:84 | the concatenated columns are exactly those of either operand |
| Frames.ConcatCopies | app.py:84 | `pd.concat([df] * n)` keeps df's columns and repeats its rows n times |
| Frames.RepeatSingle | app.py:84 | n copies of a one-row table are n copies of that row |
| Frames.DataFrame.Concat | app.py:84 | concatenation makes a fresh DataFrame holding the union of columns and all rows in order |
| Frames.DataFrame.SetColumn | app.py:85 | column assignment updates the DataFrame in place: row i gets vals[i] under the name, and the name is appended only if new |
| Trend.SweepFrame | app.py:84-85 | the sweep table has 24 rows |
| Trend.SweepRows | app.py:84-85 | sweep row i is the input row with hour set to i; the columns are the input's, with `hour` appended only if it was missing |
| Trend.SweepKeepsOtherFeatures | app.py:84-85 | each sweep row has hour i and agrees with the input row on every other column, present or absent |
| Trend.TrendEntries | app.py:86 | trend entry i is `2 ** predict` of the one-row table holding the input with hour i |
| Trend.TrendAtEnteredHour | app.py:61-86 | if the entered hour h is in 0..23, trend entry h equals the headline prediction, because both use the same model and transform on the same row |
| Trend.TrendIgnoresEnteredHour | app.py:83-86 | two one-row inputs with the same columns that agree on every feature except the hour give the same 24 trend values |
| Trend.BuildTrendFrame | app.py:84-85 | the trend DataFrame is fresh and holds the sweep table; the input DataFrame is unchanged |
| App.InputFrameShape | app.py:48-56 | the input table has one row, the table's 18 column names in order, and a value for every column |
| App.InputHourWhole | app.py:50-56 | with a widget that keeps to its kind, the input row's hour is an int of at least 0 |
| App.Run | app.py:48-86 | a report exists iff the button is pressed; it holds `2 ** predict(input table)`, the hours 0..23 and the trend over the sweep of that same input table |
| App.ReportConsistent | app.py:61-86 | for every widget, a pressed run charts 24 points over 24 hours, and when the entered hour is a whole number in 0..23 the point at that hour is the headline energy |

## Left out

- The page layout, title, markdown, sidebar header and success message
  (app.py:14-22, 47, 63) are presentation only.
- The gauge chart (app.py:65-80) and the trend line chart (app.py:88-97) are
  presentation only. The model stops at the numbers the charts receive.
- The input-range note (app.py:99-125) is documentation only. No range is
  enforced, so the model accepts any value the widget returns.
- Loading the pickled model from a fixed Windows path (app.py:9-12) is file I/O.
  The loaded regressor is the `Model` parameter, and its internals are not modelled.
- Floating point is not modelled: values and predictions are Dafny `real`, and
  `2 ** x` is the `Exp2` parameter. `float(...)` on app.py:61 is therefore the
  identity, so neither the `OverflowError` that Python's float `**` raises on
  app.py:62 for a prediction of 1024 or more, nor the `inf` that numpy's power
  returns on app.py:86, appears.
- The widgets' interactive behaviour is the `Widget` parameter. The `Kind` it
  receives carries `min_value=0, step=1` or `value=0.0, step=0.01`. The display
  format `"%.3f"` is left out.
- Streamlit re-runs the whole script on every interaction. One `App.Run` is one
  such re-run, and the button's state is its `pressed` argument.
- pandas index labels (`ignore_index=True`) and column dtypes are not modelled.
  A frame is its column order and its rows.
- Frames.DataFrame.Concat: does not model `pd.concat` of an empty list, which
  pandas refuses. It is a precondition instead.
- Frames.DataFrame.SetColumn: does not model assigning a list whose length is
  not the row count, which pandas refuses unless the DataFrame has no rows, in
  which case it builds the index from the list. It is a precondition instead.
- Frames.Frame.Take: does not model an out-of-range `iloc` index, which pandas
  refuses with an IndexError. It is a precondition instead.
- Trend.TrendPredictions: does not model a table of fewer than 24 rows, where
  `iloc[[i]]` would fail for some i. It is a precondition instead; the sweep
  always has 24 rows.
- Trend.SweepFrame: does not model an input table of two or more rows, which
  pandas refuses at the column assignment because the 24-item hour list does
  not match the 24-times-larger row count. Nor does it model a table of no rows,
  for which pandas builds the index from the list and returns 24 rows holding
  only `hour`. One row is a precondition instead. Neither case can arise on the
  page, because app.py:56 always builds a one-row table.
- Trend.BuildTrendFrame: the same one-row precondition as Trend.SweepFrame, for
  the same reasons.
