/** The sidebar form: one number widget per schema entry, whose answers are
    gathered into an insertion-ordered dictionary from column name to value. */
module Inputs {
  import opened Features

  /** What a number widget returns: an int for a whole-number widget, a
      float for a decimal one. */
  datatype Value = Whole(n: int) | Decimal(x: real)

  /** A widget stands for the interactive `number_input` call: given the
      label and the kind of widget, it returns the number the user entered. */
  type Widget = (string, Kind) -> Value

  /** `v` is a value a widget of kind `kind` can return: whole-number widgets
      never go below their minimum, decimal widgets return floats. */
  predicate Fits(v: Value, kind: Kind) {
    match kind
    case WholeNumber(minValue, _) => v.Whole? && v.n >= minValue
    case DecimalNumber(_, _) => v.Decimal?
  }

  /** The widget keeps to the kind it is configured with, for every label. */
  ghost predicate Honours(widget: Widget) {
    forall display, kind :: Fits(widget(display, kind), kind)
  }

  /** An insertion-ordered dictionary from column name to value. */
  datatype Record = Record(keys: seq<string>, values: map<string, Value>) {

    /** The key order lists every key of the map exactly once. */
    ghost predicate Valid() {
      Distinct(keys) && forall k :: k in values <==> k in keys
    }

    /** `d[k] = v`: a new key goes to the end of the order, an existing key
        keeps its place and gets the new value. */
    function Assign(k: string, v: Value): Record
    {
      Record(if k in values then keys else keys + [k], values[k := v])
    }
  }

  const Empty := Record([], map[])

  /** Assigning keeps the dictionary well formed, stores the value, leaves
      every other key alone and appends only keys that were missing. */
  lemma AssignValid(d: Record, k: string, v: Value)
    requires d.Valid()
    ensures d.Assign(k, v).Valid()
    ensures k in d.values ==> d.Assign(k, v).keys == d.keys
    ensures k !in d.values ==> d.Assign(k, v).keys == d.keys + [k]
    ensures d.Assign(k, v).values[k] == v
    ensures forall k' :: k' != k && k' in d.values ==> d.Assign(k, v).values[k'] == d.values[k']
  {
  }

  /** The value the loop body stores for one schema entry. */
  function Answer(f: Feature, widget: Widget): Value {
    widget(f.display, KindOf(f.display))
  }

  /** The dictionary after the form loop has visited the entries of
      `schema`, in order, starting from an empty dictionary. */
  function Collected(schema: seq<Feature>, widget: Widget): Record
    decreases |schema|
  {
    if schema == [] then Empty
    else
      var last := schema[|schema| - 1];
      Collected(schema[..|schema| - 1], widget).Assign(last.name, Answer(last, widget))
  }

  /** With distinct column names, the form produces a well-formed dictionary
      whose keys are the column names in schema order. */
  lemma {:induction false} CollectedKeys(schema: seq<Feature>, widget: Widget)
    requires Distinct(Names(schema))
    ensures Collected(schema, widget).Valid()
    ensures Collected(schema, widget).keys == Names(schema)
    decreases |schema|
  {
    if schema != [] {
      var n := |schema| - 1;
      var init := schema[..n];
      var last := schema[n];
      assert Names(init) == Names(schema)[..n];
      CollectedKeys(init, widget);
      var d := Collected(init, widget);
      assert last.name !in d.keys by {
        forall i | 0 <= i < n
          ensures d.keys[i] != last.name
        {
          assert Names(schema)[i] != Names(schema)[n];
        }
      }
      AssignValid(d, last.name, Answer(last, widget));
    }
  }

  /** With distinct column names, each column holds what its own entry's
      widget returned. */
  lemma {:induction false} CollectedValues(schema: seq<Feature>, widget: Widget)
    requires Distinct(Names(schema))
    ensures forall i :: 0 <= i < |schema| ==>
              schema[i].name in Collected(schema, widget).values &&
              Collected(schema, widget).values[schema[i].name] == Answer(schema[i], widget)
    decreases |schema|
  {
    if schema != [] {
      var n := |schema| - 1;
      var init := schema[..n];
      var last := schema[n];
      assert Names(init) == Names(schema)[..n];
      CollectedValues(init, widget);
      var d := Collected(init, widget);
      assert Collected(schema, widget).values == d.values[last.name := Answer(last, widget)];
      forall i | 0 <= i < |schema|
        ensures schema[i].name in Collected(schema, widget).values
        ensures Collected(schema, widget).values[schema[i].name] == Answer(schema[i], widget)
      {
        if i < n {
          assert schema[i].name != last.name by {
            assert Names(schema)[i] != Names(schema)[n];
          }
          assert init[i] == schema[i];
        }
      }
    }
  }

  /** The sidebar loop: visit the display table in order and store each
      widget's answer under the entry's column name. */
  method CollectInput(schema: seq<Feature>, widget: Widget) returns (userInput: Record)
    ensures userInput == Collected(schema, widget)
    ensures Distinct(Names(schema)) ==> userInput.keys == Names(schema)
    ensures Distinct(Names(schema)) ==>
              forall i :: 0 <= i < |schema| ==>
                schema[i].name in userInput.values && userInput.values[schema[i].name] == Answer(schema[i], widget)
  {
    userInput := Empty;
    for i := 0 to |schema|
      invariant userInput == Collected(schema[..i], widget)
    {
      var entry := schema[i];
      var value := widget(entry.display, KindOf(entry.display));
      assert schema[..i + 1][..i] == schema[..i];
      userInput := userInput.Assign(entry.name, value);
    }
    assert schema[..|schema|] == schema;
    if Distinct(Names(schema)) {
      CollectedKeys(schema, widget);
      CollectedValues(schema, widget);
    }
  }

  /** The form over the display table fills exactly the table's eighteen
      column names, in order. */
  lemma DisplayInputColumns(widget: Widget)
    ensures Collected(FeatureDisplay(), widget).keys == ModelColumns()
    ensures |Collected(FeatureDisplay(), widget).keys| == 18
  {
    ColumnNamesDistinct();
    CollectedKeys(FeatureDisplay(), widget);
    ColumnNames();
  }

  /** With a widget that keeps to its kind and distinct column names, a
      column whose label asks for a whole number holds an int of at least 0,
      and any other column holds a float. */
  lemma CollectedKind(schema: seq<Feature>, widget: Widget, i: int, name: string)
    requires Distinct(Names(schema))
    requires Honours(widget)
    requires 0 <= i < |schema| && schema[i].name == name
    ensures name in Collected(schema, widget).values
    ensures var v := Collected(schema, widget).values[name];
            if IsIntegerKind(schema[i].display) then v.Whole? && v.n >= 0 else v.Decimal?
  {
    CollectedValues(schema, widget);
    assert Fits(Answer(schema[i], widget), KindOf(schema[i].display));
  }

  /** With a widget that keeps to its kind, the four calendar columns hold
      whole numbers of at least 0 and the other fourteen hold floats. */
  lemma DisplayInputKinds(widget: Widget)
    requires Honours(widget)
    ensures forall i :: 0 <= i < 18 ==>
              FeatureDisplay()[i].name in Collected(FeatureDisplay(), widget).values &&
              var v := Collected(FeatureDisplay(), widget).values[FeatureDisplay()[i].name];
              if 6 <= i < 10 then v.Whole? && v.n >= 0 else v.Decimal?
  {
    var schema := FeatureDisplay();
    ColumnNamesDistinct();
    CollectedValues(schema, widget);
    IntegerKindBlock();
    forall i | 0 <= i < 18
      ensures schema[i].name in Collected(schema, widget).values
      ensures var v := Collected(schema, widget).values[schema[i].name];
              if 6 <= i < 10 then v.Whole? && v.n >= 0 else v.Decimal?
    {
      assert Fits(Answer(schema[i], widget), KindOf(schema[i].display));
    }
  }
}
