/** The fixed feature schema of the energy predictor: the ordered table from
    sidebar labels to the column names the trained model expects, and the
    label rule that decides whether a feature is entered as a whole number
    or as a decimal. */
module Features {

  /** One entry of the display table: the label shown in the sidebar and the
      model's column name. */
  datatype Feature = Feature(display: string, name: string)

  /** The display table, in the dictionary's insertion order. */
  function FeatureDisplay(): (schema: seq<Feature>)
    ensures |schema| == 18
  {
    [ Feature("Outside Temperature (°C)", "T_out"),
      Feature("Outside Pressure (mm Hg)", "Press_mm_hg"),
      Feature("Outside Humidity (%)", "RH_out"),
      Feature("Windspeed (m/s)", "Windspeed"),
      Feature("Visibility (km)", "Visibility"),
      Feature("Dew Point (°C)", "Tdewpoint"),
      Feature("Day of Month", "day_of_month"),
      Feature("Day of Week", "day_of_week"),
      Feature("Month", "month"),
      Feature("Hour of Day", "hour"),
      Feature("Mean Indoor Temperature (°C)", "T_mean"),
      Feature("Max Indoor Temperature (°C)", "T_max"),
      Feature("Min Indoor Temperature (°C)", "T_min"),
      Feature("Std Indoor Temperature", "T_std"),
      Feature("Mean Indoor Humidity (%)", "RH_mean"),
      Feature("Max Indoor Humidity (%)", "RH_max"),
      Feature("Min Indoor Humidity (%)", "RH_min"),
      Feature("Std Indoor Humidity", "RH_std") ]
  }

  /** The sidebar labels, in schema order. */
  function Displays(schema: seq<Feature>): seq<string> {
    seq(|schema|, i requires 0 <= i < |schema| => schema[i].display)
  }

  /** The eighteen labels are distinct, as the keys of the dictionary
      literal the table is written as must be for it to hold 18 entries. */
  lemma LabelsDistinct()
    ensures Distinct(Displays(FeatureDisplay()))
  {
  }

  /** The column names, in schema order. */
  function Names(schema: seq<Feature>): seq<string> {
    seq(|schema|, i requires 0 <= i < |schema| => schema[i].name)
  }

  ghost predicate Distinct(names: seq<string>) {
    forall i, j :: 0 <= i < j < |names| ==> names[i] != names[j]
  }

  /** The eighteen column names of the table, written out. */
  function ModelColumns(): seq<string> {
    ["T_out", "Press_mm_hg", "RH_out", "Windspeed", "Visibility", "Tdewpoint",
     "day_of_month", "day_of_week", "month", "hour",
     "T_mean", "T_max", "T_min", "T_std", "RH_mean", "RH_max", "RH_min", "RH_std"]
  }

  /** The table's column names are exactly these eighteen names, in order. */
  lemma ColumnNames()
    ensures Names(FeatureDisplay()) == ModelColumns()
  {
  }

  lemma ModelColumnsDistinct()
    ensures Distinct(ModelColumns())
  {
  }

  /** No two labels map to the same column, so no column is lost when the
      input record is filled in. */
  lemma ColumnNamesDistinct()
    ensures Distinct(Names(FeatureDisplay()))
  {
    ColumnNames();
    ModelColumnsDistinct();
  }

  // ---------------------------------------------------------------------------
  // Case-sensitive substring test (Python's `sub in s` on strings)
  // ---------------------------------------------------------------------------

  /** `sub[j..]` matches `s` from position `i + j` on. */
  predicate MatchesAt(s: string, sub: string, i: nat, j: nat)
    decreases |sub| - j
  {
    j >= |sub| || (i + j < |s| && s[i + j] == sub[j] && MatchesAt(s, sub, i, j + 1))
  }

  /** `sub` occurs somewhere in `s`: it matches at the front, or it occurs in
      the rest of `s`. */
  predicate Contains(s: string, sub: string) {
    |sub| <= |s| && (MatchesAt(s, sub, 0, 0) || Contains(s[1..], sub))
  }

  /** Reference definition: `sub` is the slice of `s` that starts at `i`. */
  ghost predicate OccursAt(s: string, sub: string, i: nat) {
    i + |sub| <= |s| && s[i..i + |sub|] == sub
  }

  lemma {:induction false} MatchesAtIsSlice(s: string, sub: string, i: nat, j: nat)
    requires j <= |sub| && i + |sub| <= |s|
    ensures MatchesAt(s, sub, i, j) <==> s[i + j..i + |sub|] == sub[j..]
    decreases |sub| - j
  {
    if j < |sub| {
      MatchesAtIsSlice(s, sub, i, j + 1);
      assert s[i + j..i + |sub|] == [s[i + j]] + s[i + j + 1..i + |sub|];
      assert sub[j..] == [sub[j]] + sub[j + 1..];
    }
  }

  lemma {:induction false} MatchesAtTail(s: string, sub: string, i: nat, j: nat)
    requires |s| > 0
    ensures MatchesAt(s[1..], sub, i, j) == MatchesAt(s, sub, i + 1, j)
    decreases |sub| - j
  {
    if j < |sub| {
      MatchesAtTail(s, sub, i, j + 1);
    }
  }

  lemma OccursAtTail(s: string, sub: string, k: nat)
    requires |s| > 0
    ensures OccursAt(s[1..], sub, k) <==> OccursAt(s, sub, k + 1)
  {
  }

  /** Where the substring test succeeds, `sub` is a slice of `s`. */
  lemma {:induction false} ContainsWitness(s: string, sub: string) returns (k: nat)
    requires Contains(s, sub)
    ensures OccursAt(s, sub, k)
  {
    MatchesAtIsSlice(s, sub, 0, 0);
    assert sub[0..] == sub;
    if MatchesAt(s, sub, 0, 0) {
      k := 0;
    } else {
      var k' := ContainsWitness(s[1..], sub);
      OccursAtTail(s, sub, k');
      k := k' + 1;
    }
  }

  /** Wherever `sub` is a slice of `s`, the substring test succeeds. */
  lemma {:induction false} OccursAtContains(s: string, sub: string, k: nat)
    requires OccursAt(s, sub, k)
    ensures Contains(s, sub)
  {
    MatchesAtIsSlice(s, sub, 0, 0);
    assert sub[0..] == sub;
    if k > 0 {
      OccursAtTail(s, sub, k - 1);
      OccursAtContains(s[1..], sub, k - 1);
    }
  }

  /** The substring test agrees with the slice definition, in both directions. */
  lemma ContainsIff(s: string, sub: string)
    ensures Contains(s, sub) <==> exists k: nat :: OccursAt(s, sub, k)
  {
    if Contains(s, sub) {
      var k := ContainsWitness(s, sub);
    }
    if exists k: nat :: OccursAt(s, sub, k) {
      var k: nat :| OccursAt(s, sub, k);
      OccursAtContains(s, sub, k);
    }
  }

  /** Establishes that `sub` does not occur in a literal `s`: each position is
      ruled out on its own, which keeps the solver's unfolding shallow. */
  lemma {:induction false} Absent(s: string, sub: string)
    requires forall k: nat :: k + |sub| <= |s| ==> !MatchesAt(s, sub, k, 0)
    ensures !Contains(s, sub)
  {
    if |sub| <= |s| && |s| > 0 {
      forall k: nat | k + |sub| <= |s[1..]| ensures !MatchesAt(s[1..], sub, k, 0) {
        MatchesAtTail(s, sub, k, 0);
      }
      Absent(s[1..], sub);
    }
  }

  // ---------------------------------------------------------------------------
  // Kind of each feature
  // ---------------------------------------------------------------------------

  /** A label naming a day, an hour or a month is entered as a whole number. */
  predicate IsIntegerKind(display: string) {
    Contains(display, "Day") || Contains(display, "Hour") || Contains(display, "Month")
  }

  /** The arguments the sidebar input is created with: a whole number with
      minimum 0 and step 1, or a decimal starting at 0.0 with step 0.01. */
  datatype Kind = WholeNumber(minValue: int, wholeStep: int) | DecimalNumber(initial: real, decimalStep: real)

  function KindOf(display: string): Kind {
    if IsIntegerKind(display) then WholeNumber(0, 1) else DecimalNumber(0.0, 0.01)
  }

  /** A label in which no position starts "Day", "Hour" or "Month" is a
      decimal label. */
  lemma NotIntegerKind(display: string)
    requires forall k: nat :: k + 3 <= |display| ==> !MatchesAt(display, "Day", k, 0)
    requires forall k: nat :: k + 4 <= |display| ==> !MatchesAt(display, "Hour", k, 0)
    requires forall k: nat :: k + 5 <= |display| ==> !MatchesAt(display, "Month", k, 0)
    ensures !IsIntegerKind(display)
  {
    Absent(display, "Day");
    Absent(display, "Hour");
    Absent(display, "Month");
  }

  // The fourteen measurement labels mention no day, hour or month. One lemma
  // per label, and below one per table entry, keeps each proof small: a
  // single lemma over several label literals makes the solver unfold the
  // substring test on all of them at once and exhaust its resources.

  lemma TOutIsDecimal() ensures !IsIntegerKind("Outside Temperature (°C)") { NotIntegerKind("Outside Temperature (°C)"); }
  lemma PressMmHgIsDecimal() ensures !IsIntegerKind("Outside Pressure (mm Hg)") { NotIntegerKind("Outside Pressure (mm Hg)"); }
  lemma RhOutIsDecimal() ensures !IsIntegerKind("Outside Humidity (%)") { NotIntegerKind("Outside Humidity (%)"); }
  lemma WindspeedIsDecimal() ensures !IsIntegerKind("Windspeed (m/s)") { NotIntegerKind("Windspeed (m/s)"); }
  lemma VisibilityIsDecimal() ensures !IsIntegerKind("Visibility (km)") { NotIntegerKind("Visibility (km)"); }
  lemma TdewpointIsDecimal() ensures !IsIntegerKind("Dew Point (°C)") { NotIntegerKind("Dew Point (°C)"); }
  lemma TMeanIsDecimal() ensures !IsIntegerKind("Mean Indoor Temperature (°C)") { NotIntegerKind("Mean Indoor Temperature (°C)"); }
  lemma TMaxIsDecimal() ensures !IsIntegerKind("Max Indoor Temperature (°C)") { NotIntegerKind("Max Indoor Temperature (°C)"); }
  lemma TMinIsDecimal() ensures !IsIntegerKind("Min Indoor Temperature (°C)") { NotIntegerKind("Min Indoor Temperature (°C)"); }
  lemma TStdIsDecimal() ensures !IsIntegerKind("Std Indoor Temperature") { NotIntegerKind("Std Indoor Temperature"); }
  lemma RhMeanIsDecimal() ensures !IsIntegerKind("Mean Indoor Humidity (%)") { NotIntegerKind("Mean Indoor Humidity (%)"); }
  lemma RhMaxIsDecimal() ensures !IsIntegerKind("Max Indoor Humidity (%)") { NotIntegerKind("Max Indoor Humidity (%)"); }
  lemma RhMinIsDecimal() ensures !IsIntegerKind("Min Indoor Humidity (%)") { NotIntegerKind("Min Indoor Humidity (%)"); }
  lemma RhStdIsDecimal() ensures !IsIntegerKind("Std Indoor Humidity") { NotIntegerKind("Std Indoor Humidity"); }

  // Each schema entry's kind, one lemma per entry.

  lemma TOutEntry() ensures !IsIntegerKind(FeatureDisplay()[0].display) {
    assert FeatureDisplay()[0].display == "Outside Temperature (°C)";
    TOutIsDecimal();
  }

  lemma PressMmHgEntry() ensures !IsIntegerKind(FeatureDisplay()[1].display) {
    assert FeatureDisplay()[1].display == "Outside Pressure (mm Hg)";
    PressMmHgIsDecimal();
  }

  lemma RhOutEntry() ensures !IsIntegerKind(FeatureDisplay()[2].display) {
    assert FeatureDisplay()[2].display == "Outside Humidity (%)";
    RhOutIsDecimal();
  }

  lemma WindspeedEntry() ensures !IsIntegerKind(FeatureDisplay()[3].display) {
    assert FeatureDisplay()[3].display == "Windspeed (m/s)";
    WindspeedIsDecimal();
  }

  lemma VisibilityEntry() ensures !IsIntegerKind(FeatureDisplay()[4].display) {
    assert FeatureDisplay()[4].display == "Visibility (km)";
    VisibilityIsDecimal();
  }

  lemma TdewpointEntry() ensures !IsIntegerKind(FeatureDisplay()[5].display) {
    assert FeatureDisplay()[5].display == "Dew Point (°C)";
    TdewpointIsDecimal();
  }

  lemma DayOfMonthEntry() ensures IsIntegerKind(FeatureDisplay()[6].display) {
    assert FeatureDisplay()[6].display == "Day of Month";
    assert MatchesAt("Day of Month", "Day", 0, 0);
  }

  lemma DayOfWeekEntry() ensures IsIntegerKind(FeatureDisplay()[7].display) {
    assert FeatureDisplay()[7].display == "Day of Week";
    assert MatchesAt("Day of Week", "Day", 0, 0);
  }

  lemma MonthEntry() ensures IsIntegerKind(FeatureDisplay()[8].display) {
    assert FeatureDisplay()[8].display == "Month";
    assert MatchesAt("Month", "Month", 0, 0);
  }

  lemma HourEntry() ensures IsIntegerKind(FeatureDisplay()[9].display) {
    assert FeatureDisplay()[9].display == "Hour of Day";
    assert MatchesAt("Hour of Day", "Hour", 0, 0);
  }

  lemma TMeanEntry() ensures !IsIntegerKind(FeatureDisplay()[10].display) {
    assert FeatureDisplay()[10].display == "Mean Indoor Temperature (°C)";
    TMeanIsDecimal();
  }

  lemma TMaxEntry() ensures !IsIntegerKind(FeatureDisplay()[11].display) {
    assert FeatureDisplay()[11].display == "Max Indoor Temperature (°C)";
    TMaxIsDecimal();
  }

  lemma TMinEntry() ensures !IsIntegerKind(FeatureDisplay()[12].display) {
    assert FeatureDisplay()[12].display == "Min Indoor Temperature (°C)";
    TMinIsDecimal();
  }

  lemma TStdEntry() ensures !IsIntegerKind(FeatureDisplay()[13].display) {
    assert FeatureDisplay()[13].display == "Std Indoor Temperature";
    TStdIsDecimal();
  }

  lemma RhMeanEntry() ensures !IsIntegerKind(FeatureDisplay()[14].display) {
    assert FeatureDisplay()[14].display == "Mean Indoor Humidity (%)";
    RhMeanIsDecimal();
  }

  lemma RhMaxEntry() ensures !IsIntegerKind(FeatureDisplay()[15].display) {
    assert FeatureDisplay()[15].display == "Max Indoor Humidity (%)";
    RhMaxIsDecimal();
  }

  lemma RhMinEntry() ensures !IsIntegerKind(FeatureDisplay()[16].display) {
    assert FeatureDisplay()[16].display == "Min Indoor Humidity (%)";
    RhMinIsDecimal();
  }

  lemma RhStdEntry() ensures !IsIntegerKind(FeatureDisplay()[17].display) {
    assert FeatureDisplay()[17].display == "Std Indoor Humidity";
    RhStdIsDecimal();
  }

  /** The label rule marks exactly the features at positions 6 to 9 (Day of
      Month, Day of Week, Month, Hour of Day) as whole numbers. */
  lemma IntegerKindBlock()
    ensures forall i :: 0 <= i < |FeatureDisplay()| ==>
      (IsIntegerKind(FeatureDisplay()[i].display) <==> 6 <= i < 10)
  {
    forall i | 0 <= i < |FeatureDisplay()|
      ensures IsIntegerKind(FeatureDisplay()[i].display) <==> 6 <= i < 10
    {
      if i == 0 {
        TOutEntry();
      } else if i == 1 {
        PressMmHgEntry();
      } else if i == 2 {
        RhOutEntry();
      } else if i == 3 {
        WindspeedEntry();
      } else if i == 4 {
        VisibilityEntry();
      } else if i == 5 {
        TdewpointEntry();
      } else if i == 6 {
        DayOfMonthEntry();
      } else if i == 7 {
        DayOfWeekEntry();
      } else if i == 8 {
        MonthEntry();
      } else if i == 9 {
        HourEntry();
      } else if i == 10 {
        TMeanEntry();
      } else if i == 11 {
        TMaxEntry();
      } else if i == 12 {
        TMinEntry();
      } else if i == 13 {
        TStdEntry();
      } else if i == 14 {
        RhMeanEntry();
      } else if i == 15 {
        RhMaxEntry();
      } else if i == 16 {
        RhMinEntry();
      } else {
        RhStdEntry();
      }
    }
  }

  /** The names of the whole-number columns, in schema order. */
  function IntegerColumns(schema: seq<Feature>): seq<string> {
    if schema == [] then []
    else (if IsIntegerKind(schema[0].display) then [schema[0].name] else []) + IntegerColumns(schema[1..])
  }

  /** When the whole-number features form the block `lo..hi` of the schema,
      the whole-number columns are exactly that block's names, in order. */
  lemma {:induction false} IntegerColumnsBlock(schema: seq<Feature>, lo: nat, hi: nat)
    requires lo <= hi <= |schema|
    requires forall i :: 0 <= i < |schema| ==> (IsIntegerKind(schema[i].display) <==> lo <= i < hi)
    ensures IntegerColumns(schema) == Names(schema)[lo..hi]
  {
    if schema != [] {
      var rest := schema[1..];
      var lo', hi' := if lo == 0 then 0 else lo - 1, if hi == 0 then 0 else hi - 1;
      forall i | 0 <= i < |rest| ensures IsIntegerKind(rest[i].display) <==> lo' <= i < hi' {
        assert rest[i] == schema[i + 1];
      }
      IntegerColumnsBlock(rest, lo', hi');
      assert Names(rest) == Names(schema)[1..];
      if lo == 0 < hi {
        assert Names(schema)[lo..hi] == [schema[0].name] + Names(rest)[lo'..hi'];
      } else {
        assert Names(schema)[lo..hi] == Names(rest)[lo'..hi'];
      }
    }
  }

  /** The whole-number columns of the display table are its entries 6 to 9. */
  lemma IntegerColumnsOfDisplay()
    ensures IntegerColumns(FeatureDisplay()) == Names(FeatureDisplay())[6..10]
  {
    IntegerKindBlock();
    IntegerColumnsBlock(FeatureDisplay(), 6, 10);
  }

  /** Exactly four features are whole numbers: day_of_month, day_of_week,
      month and hour, in that order. */
  lemma FourIntegerFeatures()
    ensures IntegerColumns(FeatureDisplay()) == ["day_of_month", "day_of_week", "month", "hour"]
  {
    IntegerColumnsOfDisplay();
    IntegerNamesOfDisplay();
  }

  /** Entries 6 to 9 of the display table name the calendar columns. */
  lemma IntegerNamesOfDisplay()
    ensures Names(FeatureDisplay())[6..10] == ["day_of_month", "day_of_week", "month", "hour"]
  {
  }
}
