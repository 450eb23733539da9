/**
 * DataFrame: a store of named numeric columns that keeps the order in which
 * columns were added. The C++ class holds an unordered_map from name to
 * column, a vector of names in insertion order, and the row count fixed by
 * the first column.
 */
module DataFrames {
  import opened Wrappers
  import opened Strings

  /** A dense matrix as a sequence of rows (Eigen::MatrixXd). */
  type Matrix = seq<seq<real>>

  /** The frame's abstract value: its columns, in insertion order. */
  function TableOf(data: map<string, seq<real>>, order: seq<string>): (t: seq<(string, seq<real>)>)
    requires forall i :: 0 <= i < |order| ==> order[i] in data
    ensures |t| == |order|
    ensures forall i :: 0 <= i < |order| ==> t[i] == (order[i], data[order[i]])
  {
    seq(|order|, i requires 0 <= i < |order| => (order[i], data[order[i]]))
  }

  /** The names of a table's columns, in order. */
  function NamesOf(t: seq<(string, seq<real>)>): (r: seq<string>)
    ensures |r| == |t| && forall i :: 0 <= i < |t| ==> r[i] == t[i].0
  {
    seq(|t|, i requires 0 <= i < |t| => t[i].0)
  }

  /** Adding a new column at the end of the order appends one entry to the table. */
  lemma TableOfAppend(data: map<string, seq<real>>, order: seq<string>, name: string, column: seq<real>)
    requires forall n :: n in order ==> n in data
    requires name !in data
    ensures TableOf(data[name := column], order + [name]) == TableOf(data, order) + [(name, column)]
  {
    var t, t' := TableOf(data, order), TableOf(data[name := column], order + [name]);
    forall i | 0 <= i < |t'| ensures t'[i] == (t + [(name, column)])[i] {
      if i < |order| {
        assert (order + [name])[i] == order[i];
      }
    }
  }

  class DataFrame {
    var data: map<string, seq<real>>
    var columnOrder: seq<string>
    var rows: nat

    /**
     * The invariant addColumn keeps: the ordered names are exactly the keys,
     * each once; every column has `rows` entries; an empty frame has no rows.
     */
    ghost predicate Valid()
      reads this
    {
      (forall n :: n in data <==> n in columnOrder)
      && Distinct(columnOrder)
      && (forall n :: n in data ==> |data[n]| == rows)
      && (columnOrder == [] ==> rows == 0)
    }

    function Table(): (t: seq<(string, seq<real>)>)
      reads this
      requires Valid()
      ensures NamesOf(t) == columnOrder
    {
      TableOf(data, columnOrder)
    }

    constructor ()
      ensures Valid() && Table() == [] && rows == 0
    {
      data := map[];
      columnOrder := [];
      rows := 0;
    }

    /** addColumn: appends a column, refusing a duplicate name or a wrong length. */
    method AddColumn(name: string, column: seq<real>) returns (o: Outcome)
      requires Valid()
      modifies this
      ensures Valid()
      ensures o.Fail? <==> name in old(data) || (old(data) != map[] && |column| != old(rows))
      ensures o.Fail? ==> o.error.InvalidArgument? && unchanged(this)
      ensures o.Pass? ==> data == old(data)[name := column] && columnOrder == old(columnOrder) + [name]
      ensures o.Pass? ==> rows == |column| && Table() == old(Table()) + [(name, column)]
    {
      if name in data {
        return Fail(InvalidArgument("Column '" + name + "' already exists in the DataFrame"));
      }
      if data != map[] && |column| != rows {
        return Fail(InvalidArgument("Column '" + name + "' has " + NatToString(|column|)
                                    + " rows, but DataFrame has " + NatToString(rows) + " rows"));
      }
      if data == map[] {
        rows := |column|;
      }
      TableOfAppend(data, columnOrder, name, column);
      data := data[name := column];
      columnOrder := columnOrder + [name];
      o := Pass;
    }

    /** hasColumn */
    function HasColumn(name: string): (b: bool)
      reads this
      requires Valid()
      ensures b <==> name in columnOrder
    {
      name in data
    }

    /** getColumn: the stored column, or out_of_range exactly when hasColumn is false. */
    function GetColumn(name: string): (r: Result<seq<real>>)
      reads this
      requires Valid()
      ensures r.Ok? <==> HasColumn(name)
      ensures r.Err? ==> r.error.OutOfRange?
      ensures r.Ok? ==> |r.value| == rows && exists i :: 0 <= i < |Table()| && Table()[i] == (name, r.value)
    {
      if name in data then
        assert Table()[IndexOf(columnOrder, name)] == (name, data[name]);
        Ok(data[name])
      else
        Err(OutOfRange("Column '" + name + "' not found in DataFrame"))
    }

    /** getColumnNames: every column name once, in insertion order. */
    function GetColumnNames(): (r: seq<string>)
      reads this
      requires Valid()
      ensures r == NamesOf(Table()) && Distinct(r)
    {
      columnOrder
    }

    /** rowCount / getNumRows: the length every column shares; 0 for an empty frame. */
    function RowCount(): (r: nat)
      reads this
      requires Valid()
      ensures forall i :: 0 <= i < |Table()| ==> |Table()[i].1| == r
      ensures Table() == [] ==> r == 0
    {
      rows
    }

    /** columnCount: the size of the map, which equals the number of ordered names. */
    function ColumnCount(): (r: nat)
      reads this
      requires Valid()
      ensures r == |Table()|
    {
      KeysOfDistinct(data, columnOrder);
      |data|
    }

    /** getValue: entry `row` of the col-th column in insertion order. */
    function GetValue(row: nat, col: nat): (r: Result<real>)
      reads this
      requires Valid()
      ensures r.Ok? <==> col < |Table()| && row < RowCount()
      ensures r.Err? ==> r.error.OutOfRange?
      ensures r.Ok? ==> r.value == Table()[col].1[row]
    {
      if col >= |columnOrder| then Err(OutOfRange("Column index out of range"))
      else if row >= |data[columnOrder[col]]| then Err(OutOfRange("Row index out of range"))
      else Ok(data[columnOrder[col]][row])
    }

    /** getColumnIndex: linear search returning the first position of `name`, or -1. */
    method GetColumnIndex(name: string) returns (i: int)
      requires Valid()
      ensures -1 <= i < |Table()|
      ensures i == -1 <==> !HasColumn(name)
      ensures i >= 0 ==> Table()[i].0 == name && forall j :: 0 <= j < i ==> Table()[j].0 != name
    {
      var k := 0;
      while k < |columnOrder|
        invariant 0 <= k <= |columnOrder|
        invariant forall j :: 0 <= j < k ==> columnOrder[j] != name
      {
        if columnOrder[k] == name {
          return k;
        }
        k := k + 1;
      }
      return -1;
    }

    /**
     * toMatrix: a rows x |names| matrix whose column c is the column named
     * names[c]. Throws on an empty list and on the first unknown name.
     */
    method ToMatrix(names: seq<string>) returns (r: Result<Matrix>)
      requires Valid()
      ensures r.Err? <==> names == [] || exists c :: 0 <= c < |names| && !HasColumn(names[c])
      ensures r.Ok? ==> |r.value| == rows
      ensures r.Ok? ==> forall row :: 0 <= row < rows ==> |r.value[row]| == |names|
      ensures r.Ok? ==> forall row, c :: 0 <= row < rows && 0 <= c < |names| ==>
                          names[c] in data && r.value[row][c] == data[names[c]][row]
    {
      if names == [] {
        return Err(InvalidArgument("No columns specified for matrix conversion"));
      }
      var m: Matrix := seq(rows, _ => seq(|names|, _ => 0.0));
      var col := 0;
      while col < |names|
        invariant 0 <= col <= |names|
        invariant |m| == rows && forall row :: 0 <= row < rows ==> |m[row]| == |names|
        invariant forall c :: 0 <= c < col ==> names[c] in data
        invariant forall row, c :: 0 <= row < rows && 0 <= c < col ==> m[row][c] == data[names[c]][row]
      {
        var name := names[col];
        if name !in data {
          return Err(OutOfRange("Column '" + name + "' not found in DataFrame"));
        }
        var column := data[name];
        var row := 0;
        while row < rows
          invariant 0 <= row <= rows
          invariant |m| == rows && forall x :: 0 <= x < rows ==> |m[x]| == |names|
          invariant forall x, c :: 0 <= x < rows && 0 <= c < col ==> m[x][c] == data[names[c]][x]
          invariant forall x :: 0 <= x < row ==> m[x][col] == column[x]
        {
          m := m[row := m[row][col := column[row]]];
          row := row + 1;
        }
        col := col + 1;
      }
      return Ok(m);
    }

    /**
     * subset: a new frame holding rows [start, end) of every column, in the
     * same column order; out_of_range unless start < end <= rows.
     */
    method Subset(start: nat, end: nat) returns (r: Result<DataFrame>)
      requires Valid()
      ensures r.Err? <==> !(start < end <= rows)
      ensures r.Err? ==> r.error.OutOfRange?
      ensures r.Ok? ==> fresh(r.value) && r.value.Valid()
      ensures r.Ok? ==> r.value.columnOrder == columnOrder && r.value.rows == end - start
      ensures r.Ok? ==> forall n :: n in data ==> r.value.data[n] == data[n][start..end]
    {
      if start >= rows || end > rows || start >= end {
        return Err(OutOfRange("Invalid subset range"));
      }
      var result := SliceColumns(columnOrder, data, start, end);
      return Ok(result);
    }
  }

  /** The loop of subset: a fresh frame to which each named column's rows
      [start, end) are added in order. */
  method SliceColumns(order: seq<string>, columns: map<string, seq<real>>, start: nat, end: nat)
    returns (result: DataFrame)
    requires Distinct(order)
    requires forall c :: c in order ==> c in columns && start < end <= |columns[c]|
    ensures fresh(result) && result.Valid() && result.columnOrder == order
    ensures order != [] ==> result.rows == end - start
    ensures forall c :: c in result.data ==> c in columns && result.data[c] == columns[c][start..end]
  {
    result := new DataFrame();
    var k := 0;
    while k < |order|
      invariant 0 <= k <= |order|
      invariant fresh(result) && result.Valid()
      invariant result.columnOrder == order[..k]
      invariant k > 0 ==> result.rows == end - start
      invariant forall c :: c in result.data ==> c in columns && result.data[c] == columns[c][start..end]
    {
      var name := order[k];
      NextNotInPrefix(order, k);
      AddFreshColumn(result, name, columns[name][start..end]);
      k := k + 1;
    }
    assert order[..k] == order;
  }

  lemma NextNotInPrefix(order: seq<string>, k: nat)
    requires Distinct(order) && k < |order|
    ensures order[k] !in order[..k] && order[..k + 1] == order[..k] + [order[k]]
  {
  }

  /** addColumn on a name the frame lacks, with a column of the frame's length, succeeds. */
  method AddFreshColumn(frame: DataFrame, name: string, column: seq<real>)
    requires frame.Valid() && name !in frame.data
    requires frame.columnOrder != [] ==> |column| == frame.rows
    modifies frame
    ensures frame.Valid() && frame.rows == |column|
    ensures frame.data == old(frame.data)[name := column]
    ensures frame.columnOrder == old(frame.columnOrder) + [name]
  {
    var o := frame.AddColumn(name, column);
  }

  function IndexOf(s: seq<string>, x: string): (i: nat)
    requires x in s
    ensures i < |s| && s[i] == x && forall j :: 0 <= j < i ==> s[j] != x
  {
    if s[0] == x then 0 else 1 + IndexOf(s[1..], x)
  }

  /** A map whose keys are exactly a duplicate-free list has as many keys as the list. */
  lemma {:induction false} KeysOfDistinct(data: map<string, seq<real>>, order: seq<string>)
    requires forall n :: n in data <==> n in order
    requires Distinct(order)
    ensures |data| == |order|
    decreases |order|
  {
    if order != [] {
      var last := order[|order| - 1];
      var rest := order[..|order| - 1];
      var smaller := map n | n in data && n != last :: data[n];
      forall n ensures n in smaller <==> n in rest {
        if n in order && n != last {
          var i :| 0 <= i < |order| && order[i] == n;
          assert i < |order| - 1;
          assert rest[i] == n;
        }
      }
      KeysOfDistinct(smaller, rest);
      assert data.Keys == smaller.Keys + {last};
    } else {
      assert data.Keys == {};
    }
  }
}
