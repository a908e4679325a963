/** The slice of pandas the predictor uses: a table of named columns whose
    rows map column names to values (a column missing from a row's map is a
    missing value), built from records, concatenated, sliced by row and
    updated one column at a time. */
module Frames {
  import opened Features
  import opened Inputs

  type Row = map<string, Value>

  /** An immutable view of a table: its column order and its rows. */
  datatype Frame = Frame(columns: seq<string>, rows: seq<Row>) {

    /** `iloc[[i]]`: a one-row table holding row `i`, with all columns. */
    function Take(i: nat): Frame
      requires i < |rows|
    {
      Frame(columns, [rows[i]])
    }

    /** `df[name] = vals`: row `i` gets `vals[i]` under `name`; an existing
        column keeps its place, a new one goes last. */
    function WithColumn(name: string, vals: seq<Value>): Frame
      requires |vals| == |rows|
    {
      Frame(if name in columns then columns else columns + [name],
            seq(|rows|, i requires 0 <= i < |rows| => rows[i][name := vals[i]]))
    }
  }

  /** `pd.DataFrame([record])`: one row, columns in the record's key order. */
  function FromRecord(record: Record): Frame {
    Frame(record.keys, [record.values])
  }

  /** The columns of `a` followed by the columns of `b` that `a` lacks, in
      their order of first appearance. */
  function UnionColumns(a: seq<string>, b: seq<string>): seq<string>
    decreases |b|
  {
    if b == [] then a
    else UnionColumns(if b[0] in a then a else a + [b[0]], b[1..])
  }

  /** `pd.concat(frames, ignore_index=True)`: rows one table after the
      other, columns united in order of first appearance. */
  function ConcatAll(frames: seq<Frame>): Frame
    requires |frames| > 0
    decreases |frames|
  {
    if |frames| == 1 then frames[0]
    else
      var init := ConcatAll(frames[..|frames| - 1]);
      var last := frames[|frames| - 1];
      Frame(UnionColumns(init.columns, last.columns), init.rows + last.rows)
  }

  /** `n` copies of `s`, one after the other. */
  function Repeat<T>(s: seq<T>, n: nat): (r: seq<T>)
    ensures |r| == n * |s|
  {
    if n == 0 then [] else Repeat(s, n - 1) + s
  }

  /** Uniting a column list with columns it already has changes nothing. */
  lemma {:induction false} UnionKnownColumns(a: seq<string>, b: seq<string>)
    requires forall c :: c in b ==> c in a
    ensures UnionColumns(a, b) == a
    decreases |b|
  {
    if b != [] {
      UnionKnownColumns(a, b[1..]);
    }
  }

  /** Every column of either list survives the union, and nothing else
      appears. */
  lemma {:induction false} UnionColumnsMembers(a: seq<string>, b: seq<string>)
    ensures forall c :: c in UnionColumns(a, b) <==> c in a || c in b
    decreases |b|
  {
    if b != [] {
      var a' := if b[0] in a then a else a + [b[0]];
      UnionColumnsMembers(a', b[1..]);
      assert forall c :: c in b <==> c == b[0] || c in b[1..];
    }
  }

  /** Concatenating `n` copies of a table keeps its columns and repeats its
      rows `n` times. */
  lemma {:induction false} ConcatCopies(f: Frame, n: nat)
    requires n > 0
    ensures ConcatAll(seq(n, _ => f)) == Frame(f.columns, Repeat(f.rows, n))
    decreases n
  {
    var frames := seq(n, _ => f);
    if n > 1 {
      assert frames[..n - 1] == seq(n - 1, _ => f);
      ConcatCopies(f, n - 1);
      UnionKnownColumns(f.columns, f.columns);
    }
  }

  /** Repeating a single row gives that row at every position. */
  lemma {:induction false} RepeatSingle<T>(x: T, n: nat)
    ensures Repeat([x], n) == seq(n, _ => x)
    decreases n
  {
    if n > 0 {
      RepeatSingle(x, n - 1);
    }
  }

  /** A pandas DataFrame whose columns and rows change in place. */
  class DataFrame {
    var columns: seq<string>
    var rows: seq<Row>

    /** The table's current contents. */
    function Snapshot(): Frame
      reads this
    {
      Frame(columns, rows)
    }

    /** A new DataFrame holding the given table. */
    constructor Of(f: Frame)
      ensures Snapshot() == f
    {
      columns := f.columns;
      rows := f.rows;
    }

    /** `pd.DataFrame([record])`. */
    constructor FromRecords(record: Record)
      ensures Snapshot() == FromRecord(record)
    {
      columns := record.keys;
      rows := [record.values];
    }

    /** `pd.concat(frames, ignore_index=True)` into a new DataFrame; pandas
        refuses an empty list. */
    static method Concat(frames: seq<DataFrame>) returns (r: DataFrame)
      requires |frames| > 0
      ensures fresh(r)
      ensures r.Snapshot() == ConcatAll(Snapshots(frames))
    {
      r := new DataFrame.Of(ConcatAll(Snapshots(frames)));
    }

    /** `self[name] = vals`, in place; pandas refuses a list whose length is
        not the number of rows. */
    method SetColumn(name: string, vals: seq<Value>)
      requires |vals| == |rows|
      modifies this
      ensures Snapshot() == old(Snapshot()).WithColumn(name, vals)
    {
      var f := Snapshot().WithColumn(name, vals);
      columns := f.columns;
      rows := f.rows;
    }
  }

  /** The contents of several DataFrames, in order. */
  function Snapshots(frames: seq<DataFrame>): seq<Frame>
    reads set f | f in frames
  {
    seq(|frames|, i reads set f | f in frames requires 0 <= i < |frames| => frames[i].Snapshot())
  }
}
