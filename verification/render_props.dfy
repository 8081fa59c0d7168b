/**
  What the pieces of `render()` and `_set_row()` in classes/worksheet.php
  guarantee: the cells one row writes, where the data loop puts every cell,
  and which formats and auto-sizes the column loop issues.
 */
module RenderParts {
  import opened PhpArray
  import opened PhpValue
  import opened Records
  import opened Sink
  import opened Worksheet

  // ---------------------------------------------------------------------------
  // Properties of instruction lists

  /** Non-write instructions come in strictly increasing `PassOrder`: by
      column, format before auto-size. */
  predicate PassOrdered(r: seq<Instr>)
  {
    forall p, q :: 0 <= p < q < |r| ==> PassOrder(r[p]) < PassOrder(r[q])
  }

  /** Every format in `r` is the declared, non-NULL format of its column
      (columns `cols` numbered from `col`) over rows `offset`..`offset + rows`. */
  predicate FormatsDeclared(r: seq<Instr>, cols: PArray<Value>, col: nat, offset: int, rows: nat, formats: PArray<Value>)
  {
    forall p :: 0 <= p < |r| && r[p].Format? ==>
      && r[p].rowFrom == offset && r[p].rowTo == offset + rows
      && col <= r[p].col < col + |cols|
      && r[p].code == Get(formats, cols[r[p].col - col].key) && r[p].code != Null
  }

  /** Every column of `cols` that declares a non-NULL format has it applied. */
  predicate FormatsApplied(r: seq<Instr>, cols: PArray<Value>, col: nat, offset: int, rows: nat, formats: PArray<Value>)
  {
    forall j :: 0 <= j < |cols| && Get(formats, cols[j].key) != Null ==>
      Format(col + j, offset, offset + rows, Get(formats, cols[j].key)) in r
  }

  /** Columns `lo`..`hi - 1` are auto-sized when the flag is TRUE, and nothing
      is auto-sized otherwise. */
  ghost predicate AutoSized(r: seq<Instr>, lo: nat, hi: nat, autoSize: Value)
  {
    forall c: nat :: AutoSize(c) in r <==> autoSize == Bool(true) && lo <= c < hi
  }

  /** Every instruction of `r` writes a cell. */
  predicate AllWrites(r: seq<Instr>)
  {
    forall p :: 0 <= p < |r| ==> IsWrite(r[p])
  }

  /** No instruction of `r` writes a cell. */
  predicate NoWrites(r: seq<Instr>)
  {
    forall p :: 0 <= p < |r| ==> !IsWrite(r[p])
  }

  /** Two runs of writes concatenate to a run of writes. */
  lemma ConcatWrites(a: seq<Instr>, b: seq<Instr>)
    requires AllWrites(a) && AllWrites(b)
    ensures AllWrites(a + b)
  {
    forall p | 0 <= p < |a + b|
      ensures IsWrite((a + b)[p])
    {
      if p >= |a| {
        assert (a + b)[p] == b[p - |a|];
      }
    }
  }

  /** Writes followed by non-writes: position alone tells which is which. */
  lemma WritesBeforeRest(a: seq<Instr>, b: seq<Instr>)
    requires AllWrites(a) && NoWrites(b)
    ensures forall p :: 0 <= p < |a + b| ==> (IsWrite((a + b)[p]) <==> p < |a|)
  {
    forall p | 0 <= p < |a + b|
      ensures IsWrite((a + b)[p]) <==> p < |a|
    {
      if p >= |a| {
        assert (a + b)[p] == b[p - |a|];
      }
    }
  }

  // ---------------------------------------------------------------------------
  // _set_row

  /** Type choice: a data cell is written typed with the column's declared type,
      and untyped when none is declared; a header cell is always typed
      TYPE_STRING, whatever `types` says. */
  lemma RowTypes(row: int, columns: PArray<Value>, types: PArray<Value>, record: Record, header: bool)
    ensures header ==> forall j :: 0 <= j < |columns| ==>
              SetRow(row, columns, types, record, header)[j] == SetTyped(j, row, Extract(record, columns[j].key), TypeString)
    ensures !header ==> forall j :: 0 <= j < |columns| ==>
              (SetRow(row, columns, types, record, header)[j].SetUntyped? <==> Get(types, columns[j].key) == Null)
    ensures !header ==> forall j :: 0 <= j < |columns| && SetRow(row, columns, types, record, header)[j].SetTyped? ==>
              SetRow(row, columns, types, record, header)[j].cellType == Get(types, columns[j].key)
  {
  }

  /** List-style columns (keys 0, 1, ...) read a list-style record by position. */
  lemma PositionalColumns(row: int, columns: PArray<Value>, types: PArray<Value>, vs: seq<Value>)
    requires forall j :: 0 <= j < |columns| ==> columns[j].key == IntKey(j)
    requires |columns| <= |vs|
    ensures forall j :: 0 <= j < |columns| ==> SetRow(row, columns, types, Arr(FromList(vs)), false)[j].value == vs[j]
  {
    forall j | 0 <= j < |columns|
      ensures SetRow(row, columns, types, Arr(FromList(vs)), false)[j].value == vs[j]
    {
      ListRecordByKey(vs, IntKey(j));
    }
  }

  /** The lookup is by key, not by position: a list-style record rendered under
      named columns yields NULL in every cell. */
  lemma NamedColumnsMissListRecord(row: int, columns: PArray<Value>, types: PArray<Value>, vs: seq<Value>)
    requires forall j :: 0 <= j < |columns| ==> columns[j].key.StrKey?
    ensures forall j :: 0 <= j < |columns| ==> SetRow(row, columns, types, Arr(FromList(vs)), false)[j].value == Null
  {
    forall j | 0 <= j < |columns|
      ensures SetRow(row, columns, types, Arr(FromList(vs)), false)[j].value == Null
    {
      ListRecordByKey(vs, columns[j].key);
    }
  }

  /** One row is all cell writes. */
  lemma SetRowWrites(row: int, columns: PArray<Value>, types: PArray<Value>, record: Record, header: bool)
    ensures AllWrites(SetRow(row, columns, types, record, header))
  {
  }

  // ---------------------------------------------------------------------------
  // Column post-pass

  /** The shape of one column's post-pass output. */
  predicate ColumnPostShaped(h: seq<Instr>, col: nat, code: Value, offset: int, rows: nat, autoSize: Value)
  {
    && |h| <= 2
    && (forall p :: 0 <= p < |h| ==> h[p].Format? || h[p].AutoSize?)
    && (forall p :: 0 <= p < |h| && h[p].Format? ==> p == 0 && h[p] == Format(col, offset, offset + rows, code) && code != Null)
    && (forall p :: 0 <= p < |h| && h[p].AutoSize? ==> p == |h| - 1 && h[p] == AutoSize(col) && autoSize == Bool(true))
    && (code != Null ==> |h| > 0 && h[0] == Format(col, offset, offset + rows, code))
    && (autoSize == Bool(true) ==> |h| > 0 && h[|h| - 1] == AutoSize(col))
  }

  lemma ColumnPostShape(col: nat, code: Value, offset: int, rows: nat, autoSize: Value)
    ensures ColumnPostShaped(ColumnPost(col, code, offset, rows, autoSize), col, code, offset, rows, autoSize)
  {
  }

  /** Two ordered runs, the first wholly below `bound` and the second wholly
      at or above it, concatenate to an ordered run. */
  lemma ConcatOrdered(a: seq<Instr>, b: seq<Instr>, bound: int)
    requires PassOrdered(a) && PassOrdered(b)
    requires forall p :: 0 <= p < |a| ==> PassOrder(a[p]) < bound
    requires forall q :: 0 <= q < |b| ==> bound <= PassOrder(b[q])
    ensures PassOrdered(a + b)
  {
    var r := a + b;
    forall p, q | 0 <= p < q < |r|
      ensures PassOrder(r[p]) < PassOrder(r[q])
    {
      if q < |a| {
        assert r[p] == a[p] && r[q] == a[q];
      } else if p < |a| {
        assert r[p] == a[p] && r[q] == b[q - |a|];
      } else {
        assert r[p] == b[p - |a|] && r[q] == b[q - |a|];
      }
    }
  }

  /** One column's post-pass output is ordered and sorts below the next column's. */
  lemma ColumnPostOrdered(col: nat, code: Value, offset: int, rows: nat, autoSize: Value)
    ensures PassOrdered(ColumnPost(col, code, offset, rows, autoSize))
    ensures forall p :: 0 <= p < |ColumnPost(col, code, offset, rows, autoSize)| ==>
              PassOrder(ColumnPost(col, code, offset, rows, autoSize)[p]) < 2 * (col + 1)
  {
  }

  /** Post-pass instructions come strictly ordered by column, and within a
      column the format precedes the auto-size: no column gets two of a kind. */
  lemma {:induction false} PostPassOrdered(cols: PArray<Value>, col: nat, offset: int, rows: nat, formats: PArray<Value>, autoSize: Value)
    ensures PassOrdered(PostPass(cols, col, offset, rows, formats, autoSize))
    decreases |cols|
  {
    if |cols| > 0 {
      var code := Get(formats, cols[0].key);
      var h := ColumnPost(col, code, offset, rows, autoSize);
      var rest := PostPass(cols[1..], col + 1, offset, rows, formats, autoSize);
      PostPassOrdered(cols[1..], col + 1, offset, rows, formats, autoSize);
      ColumnPostOrdered(col, code, offset, rows, autoSize);
      forall q | 0 <= q < |rest|
        ensures 2 * (col + 1) <= PassOrder(rest[q])
      {
        assert rest[q].Format? || rest[q].AutoSize?;
      }
      ConcatOrdered(h, rest, 2 * (col + 1));
    }
  }

  /** Every format the column loop issues is the declared, non-NULL format of
      its column, over rows `offset`..`offset + rows`. */
  lemma {:induction false} PostPassFormatsDeclared(cols: PArray<Value>, col: nat, offset: int, rows: nat, formats: PArray<Value>, autoSize: Value)
    ensures FormatsDeclared(PostPass(cols, col, offset, rows, formats, autoSize), cols, col, offset, rows, formats)
    decreases |cols|
  {
    if |cols| > 0 {
      var r := PostPass(cols, col, offset, rows, formats, autoSize);
      var code := Get(formats, cols[0].key);
      var h := ColumnPost(col, code, offset, rows, autoSize);
      var rest := PostPass(cols[1..], col + 1, offset, rows, formats, autoSize);
      PostPassFormatsDeclared(cols[1..], col + 1, offset, rows, formats, autoSize);
      ColumnPostShape(col, code, offset, rows, autoSize);
      assert r == h + rest;
      forall p | 0 <= p < |r| && r[p].Format?
        ensures r[p].rowFrom == offset && r[p].rowTo == offset + rows
        ensures col <= r[p].col < col + |cols|
        ensures r[p].code == Get(formats, cols[r[p].col - col].key) && r[p].code != Null
      {
        if p < |h| {
          assert r[p] == h[p];
        } else {
          assert r[p] == rest[p - |h|];
          assert cols[1..][r[p].col - (col + 1)] == cols[r[p].col - col];
        }
      }
    }
  }

  /** Every column that declares a non-NULL format gets it applied. */
  lemma {:induction false} PostPassFormatsApplied(cols: PArray<Value>, col: nat, offset: int, rows: nat, formats: PArray<Value>, autoSize: Value)
    ensures FormatsApplied(PostPass(cols, col, offset, rows, formats, autoSize), cols, col, offset, rows, formats)
    decreases |cols|
  {
    if |cols| > 0 {
      var r := PostPass(cols, col, offset, rows, formats, autoSize);
      var code := Get(formats, cols[0].key);
      var h := ColumnPost(col, code, offset, rows, autoSize);
      var rest := PostPass(cols[1..], col + 1, offset, rows, formats, autoSize);
      PostPassFormatsApplied(cols[1..], col + 1, offset, rows, formats, autoSize);
      ColumnPostShape(col, code, offset, rows, autoSize);
      assert r == h + rest;
      forall j | 0 <= j < |cols| && Get(formats, cols[j].key) != Null
        ensures Format(col + j, offset, offset + rows, Get(formats, cols[j].key)) in r
      {
        if j == 0 {
          assert r[0] == h[0];
        } else {
          assert cols[1..][j - 1] == cols[j];
          var f := Format(col + 1 + (j - 1), offset, offset + rows, Get(formats, cols[1..][j - 1].key));
          assert f in rest;
          var p :| 0 <= p < |rest| && rest[p] == f;
          assert r[|h| + p] == f;
        }
      }
    }
  }

  /** One column's post-pass auto-sizes that column exactly when the flag is TRUE. */
  lemma ColumnPostAutoSize(col: nat, code: Value, offset: int, rows: nat, autoSize: Value)
    ensures forall c: nat :: AutoSize(c) in ColumnPost(col, code, offset, rows, autoSize) <==>
              autoSize == Bool(true) && c == col
  {
  }

  /** An auto-size instruction is issued for every column of the pass, and
      only when the flag is identical to TRUE. */
  lemma {:induction false} PostPassAutoSize(cols: PArray<Value>, col: nat, offset: int, rows: nat, formats: PArray<Value>, autoSize: Value)
    ensures AutoSized(PostPass(cols, col, offset, rows, formats, autoSize), col, col + |cols|, autoSize)
    decreases |cols|
  {
    if |cols| > 0 {
      var r := PostPass(cols, col, offset, rows, formats, autoSize);
      var code := Get(formats, cols[0].key);
      var h := ColumnPost(col, code, offset, rows, autoSize);
      var rest := PostPass(cols[1..], col + 1, offset, rows, formats, autoSize);
      PostPassAutoSize(cols[1..], col + 1, offset, rows, formats, autoSize);
      ColumnPostAutoSize(col, code, offset, rows, autoSize);
      assert r == h + rest;
      forall c: nat
        ensures AutoSize(c) in r <==> autoSize == Bool(true) && col <= c < col + |cols|
      {
        assert AutoSize(c) in r <==> AutoSize(c) in h || AutoSize(c) in rest;
      }
    }
  }

  // ---------------------------------------------------------------------------
  // Data rows

  /** Index arithmetic of the data part: the next row starts `width` cells on. */
  lemma SlotNext(i: nat, j: nat, width: nat)
    requires i > 0
    ensures Slot(i, j, width) == width + Slot(i - 1, j, width)
  {
    assert i * width == width + (i - 1) * width;
  }

  /** The first record's cells open the data part. */
  lemma DataRowsHead(data: PArray<Record>, offset: int, columns: PArray<Value>, types: PArray<Value>, j: nat)
    requires IntKeyed(data)
    requires 0 < |data| && j < |columns|
    ensures j < |DataRows(data, offset, columns, types)|
    ensures DataRows(data, offset, columns, types)[j] ==
              Write(j, data[0].key.i + offset, Extract(data[0].value, columns[j].key), Get(types, columns[j].key))
  {
    var head := SetRow(data[0].key.i + offset, columns, types, data[0].value, false);
    assert DataRows(data, offset, columns, types)[j] == head[j];
  }

  /** After the first record's cells come the other records' cells. */
  lemma DataRowsShift(data: PArray<Record>, offset: int, columns: PArray<Value>, types: PArray<Value>, p: nat)
    requires IntKeyed(data)
    requires 0 < |data| && |columns| <= p < |columns| + |DataRows(data[1..], offset, columns, types)|
    ensures |DataRows(data, offset, columns, types)| == |columns| + |DataRows(data[1..], offset, columns, types)|
    ensures DataRows(data, offset, columns, types)[p] == DataRows(data[1..], offset, columns, types)[p - |columns|]
  {
  }

  /** Where the data loop puts cell `j` of record `i`. */
  lemma {:induction false} DataRowsCell(data: PArray<Record>, offset: int, columns: PArray<Value>, types: PArray<Value>, i: nat, j: nat)
    requires IntKeyed(data)
    requires i < |data| && j < |columns|
    ensures Slot(i, j, |columns|) < |DataRows(data, offset, columns, types)|
    ensures DataRows(data, offset, columns, types)[Slot(i, j, |columns|)] ==
              Write(j, data[i].key.i + offset, Extract(data[i].value, columns[j].key), Get(types, columns[j].key))
    decreases i
  {
    if i == 0 {
      assert Slot(0, j, |columns|) == j;
      DataRowsHead(data, offset, columns, types, j);
    } else {
      var n := |columns|;
      var rest := DataRows(data[1..], offset, columns, types);
      var k := Slot(i - 1, j, n);
      DataRowsCell(data[1..], offset, columns, types, i - 1, j);
      SlotNext(i, j, n);
      DataRowsShift(data, offset, columns, types, n + k);
      assert data[1..][i - 1] == data[i];
      assert DataRows(data, offset, columns, types)[Slot(i, j, n)] == rest[k];
    }
  }

  /** Every instruction of the data part is a cell write. */
  lemma {:induction false} DataRowsAreWrites(data: PArray<Record>, offset: int, columns: PArray<Value>, types: PArray<Value>)
    requires IntKeyed(data)
    ensures AllWrites(DataRows(data, offset, columns, types))
    decreases |data|
  {
    if |data| > 0 {
      DataRowsAreWrites(data[1..], offset, columns, types);
      var head := SetRow(data[0].key.i + offset, columns, types, data[0].value, false);
      SetRowWrites(data[0].key.i + offset, columns, types, data[0].value, false);
      ConcatWrites(head, DataRows(data[1..], offset, columns, types));
      assert DataRows(data, offset, columns, types) == head + DataRows(data[1..], offset, columns, types);
    }
  }
}
