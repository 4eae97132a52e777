/** Alignment of the encoded record to the trained column list: the
    handler's one-row table is filled in place with the missing columns and
    then re-indexed by that list. */
module Alignment {
  import opened Common
  import opened Encoding

  /** A one-row table: its column labels in order and the value each holds.
      Labels are unique. */
  class Frame {
    var columns: seq<string>
    var cells: map<string, real>

    ghost predicate Valid()
      reads this
    {
      Distinct(columns) && cells.Keys == set c | c in columns
    }

    /** The table made from the encoded columns. */
    constructor (cols: seq<Column>)
      requires Distinct(Names(cols))
      ensures Valid()
      ensures columns == Names(cols)
      ensures forall i :: 0 <= i < |cols| ==> cells[cols[i].name] == cols[i].value
      ensures forall c :: c in cells ==> cells[c] == ValueOrZero(cols, c)
    {
      columns := Names(cols);
      cells := map c | c in Names(cols) :: ValueOrZero(cols, c);
      new;
      forall i | 0 <= i < |cols|
        ensures cells[cols[i].name] == cols[i].value
      {
        assert cols[i].name in Names(cols);
        LookupPresent(cols, i);
      }
    }

    /** `frame[name] = v`: overwrites the column when the label exists and
        appends a new last column otherwise. */
    method SetColumn(name: string, v: real)
      requires Valid()
      modifies this
      ensures Valid()
      ensures columns == if name in old(columns) then old(columns) else old(columns) + [name]
      ensures cells == old(cells)[name := v]
    {
      if name !in columns {
        columns := columns + [name];
      }
      cells := cells[name := v];
    }

    /** `frame[labels]`: the table re-indexed by `labels`, in that order and
        with exactly those columns, or None (a KeyError) when some label is
        not a column of the table. */
    method Select(labels: seq<string>) returns (r: Option<seq<Column>>)
      ensures r.Some? <==> forall c :: c in labels ==> c in cells
      ensures r.Some? ==> Names(r.value) == labels
      ensures r.Some? ==>
        forall i :: 0 <= i < |labels| ==> labels[i] in cells && r.value[i].value == cells[labels[i]]
    {
      var picked: seq<Column> := [];
      for i := 0 to |labels|
        invariant |picked| == i
        invariant forall k :: 0 <= k < i ==> labels[k] in cells && picked[k] == Column(labels[k], cells[labels[k]])
      {
        if labels[i] !in cells {
          return None;
        }
        picked := picked + [Column(labels[i], cells[labels[i]])];
      }
      r := Some(picked);
    }
  }

  /** The cells of a table that holds every encoded column with its
      encoded value, and 0 in every column encoding did not produce. */
  ghost predicate FilledFrom(cells: map<string, real>, encoded: seq<Column>) {
    && (forall c :: c in Names(encoded) ==> c in cells)
    && (forall c :: c in cells ==> cells[c] == ValueOrZero(encoded, c))
  }

  /** Adding a missing column as 0 keeps the table filled from the encoding. */
  lemma FillMissing(cells: map<string, real>, encoded: seq<Column>, col: string)
    requires FilledFrom(cells, encoded) && col !in cells
    ensures FilledFrom(cells[col := 0.0], encoded)
  {
    assert col !in Names(encoded);
    LookupAbsent(encoded, col);
  }

  /** The handler's encoding and alignment: get_dummies on the record, a zero
      column for every trained column the encoding did not produce, then the
      re-indexing by the trained list. The result has exactly the trained
      columns, in their order; each holds the encoded value of that column,
      or 0 when encoding did not produce it. */
  method EncodeAndAlign(p: ProjectInput, featureColumns: seq<string>) returns (row: seq<Column>)
    ensures Names(row) == featureColumns
    ensures forall i :: 0 <= i < |row| ==> row[i].value == ColumnValue(p, featureColumns[i])
  {
    var encoded := GetDummies(InputRow(p));
    EncodedNamesDistinct(p);
    var frame := new Frame(encoded);
    for i := 0 to |featureColumns|
      invariant frame.Valid()
      invariant forall k :: 0 <= k < i ==> featureColumns[k] in frame.cells
      invariant FilledFrom(frame.cells, encoded)
    {
      var col := featureColumns[i];
      if col !in frame.columns {
        FillMissing(frame.cells, encoded, col);
        frame.SetColumn(col, 0.0);
      }
    }
    var selected := frame.Select(featureColumns);
    row := selected.value;
  }
}
