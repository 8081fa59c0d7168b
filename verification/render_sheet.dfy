/**
  What a whole `render()` of classes/worksheet.php issues: the header row,
  one write per (record, column) at the record's row, and after the cells the
  per-column formats and auto-sizes.
 */
module RenderSheet {
  import opened PhpArray
  import opened PhpValue
  import opened Records
  import opened Sink
  import opened Worksheet
  import opened RenderParts

  /** Number of header cells: one per column when the header is on. */
  function HeaderWidth(s: Sheet): nat
  {
    if Truthy(s.includeNames) then |s.columns| else 0
  }

  /** Data given as a PHP list: the record at position `i` has key `i`. */
  predicate ListKeyed(data: PArray<Record>)
  {
    forall i :: 0 <= i < |data| ==> data[i].key == IntKey(i)
  }

  /** The three parts of the output and their lengths. */
  lemma RenderSplit(s: Sheet)
    requires IntKeyed(s.data)
    ensures |Header(s)| == HeaderWidth(s)
    ensures |DataRows(s.data, Offset(s), s.columns, s.types)| == |s.data| * |s.columns|
    ensures Render(s) == Header(s)
                         + DataRows(s.data, Offset(s), s.columns, s.types)
                         + PostPass(s.columns, 0, Offset(s), |s.data|, s.formats, s.autoSize)
  {
  }

  /** With `include_names` on, the output opens with row 1: the column labels,
      in column order, each written typed as TYPE_STRING; the data offset is 2, so a
      record with key `k` goes to row `k + 2`. */
  lemma RenderHeaderRow(s: Sheet)
    requires IntKeyed(s.data)
    requires WellFormed(s.columns)
    requires Truthy(s.includeNames)
    ensures Offset(s) == 2
    ensures |Render(s)| >= |s.columns|
    ensures forall j :: 0 <= j < |s.columns| ==>
              Render(s)[j] == SetTyped(j, 1, s.columns[j].value, TypeString)
  {
    RenderSplit(s);
    forall j | 0 <= j < |s.columns|
      ensures Render(s)[j] == SetTyped(j, 1, s.columns[j].value, TypeString)
    {
      GetSpec(s.columns, s.columns[j].key);
      assert Render(s)[j] == Header(s)[j];
    }
  }

  /** Cell `j` of the `i`-th record, as issued by a whole render. */
  lemma RenderDataCell(s: Sheet, i: nat, j: nat)
    requires IntKeyed(s.data)
    requires i < |s.data| && j < |s.columns|
    ensures HeaderWidth(s) + Slot(i, j, |s.columns|) < |Render(s)|
    ensures Render(s)[HeaderWidth(s) + Slot(i, j, |s.columns|)] ==
              Write(j, s.data[i].key.i + Offset(s),
                    Extract(s.data[i].value, s.columns[j].key), Get(s.types, s.columns[j].key))
  {
    DataRowsCell(s.data, Offset(s), s.columns, s.types, i, j);
    RenderDataAt(s, Slot(i, j, |s.columns|));
  }

  /** Position `p` of the data part is position `H + p` of the output. */
  lemma RenderDataAt(s: Sheet, p: nat)
    requires IntKeyed(s.data)
    requires p < |DataRows(s.data, Offset(s), s.columns, s.types)|
    ensures HeaderWidth(s) + p < |Render(s)|
    ensures Render(s)[HeaderWidth(s) + p] == DataRows(s.data, Offset(s), s.columns, s.types)[p]
  {
    RenderSplit(s);
  }

  /** The cell writes are exactly the first `H + M * N` instructions (`H` header
      cells, `N` cells for each of the `M` records); everything after them is a
      format or an auto-size. */
  lemma RenderWrites(s: Sheet)
    requires IntKeyed(s.data)
    ensures |Render(s)| >= HeaderWidth(s) + |s.data| * |s.columns|
    ensures forall p :: 0 <= p < |Render(s)| ==>
              (IsWrite(Render(s)[p]) <==> p < HeaderWidth(s) + |s.data| * |s.columns|)
  {
    var pre := Header(s) + DataRows(s.data, Offset(s), s.columns, s.types);
    var t := PostPass(s.columns, 0, Offset(s), |s.data|, s.formats, s.autoSize);
    RenderSplit(s);
    RenderPrefixWrites(s);
    assert NoWrites(t);
    WritesBeforeRest(pre, t);
    assert Render(s) == pre + t;
  }

  /** The post-pass lies after every cell write: its instructions are the
      output's suffix from `H + M * N`, and that suffix is strictly ordered by
      column, each column's format before its auto-size. */
  lemma RenderTail(s: Sheet)
    requires IntKeyed(s.data)
    ensures Render(s)[HeaderWidth(s) + |s.data| * |s.columns|..] ==
              PostPass(s.columns, 0, Offset(s), |s.data|, s.formats, s.autoSize)
    ensures forall p, q :: HeaderWidth(s) + |s.data| * |s.columns| <= p < q < |Render(s)| ==>
              PassOrder(Render(s)[p]) < PassOrder(Render(s)[q])
  {
    var n := HeaderWidth(s) + |s.data| * |s.columns|;
    var t := PostPass(s.columns, 0, Offset(s), |s.data|, s.formats, s.autoSize);
    RenderSplit(s);
    PostPassOrdered(s.columns, 0, Offset(s), |s.data|, s.formats, s.autoSize);
    assert Render(s)[n..] == t;
    forall p, q | n <= p < q < |Render(s)|
      ensures PassOrder(Render(s)[p]) < PassOrder(Render(s)[q])
    {
      assert Render(s)[p] == t[p - n] && Render(s)[q] == t[q - n];
    }
  }

  /** Cell writes followed by a post-pass: every non-write comes from the post-pass. */
  lemma WritesThenPass(pre: seq<Instr>, t: seq<Instr>)
    requires AllWrites(pre)
    ensures forall p :: 0 <= p < |pre + t| && !IsWrite((pre + t)[p]) ==>
              p >= |pre| && (pre + t)[p] == t[p - |pre|]
  {
  }

  /** The output before the post-pass is all cell writes. */
  lemma RenderPrefixWrites(s: Sheet)
    requires IntKeyed(s.data)
    ensures AllWrites(Header(s) + DataRows(s.data, Offset(s), s.columns, s.types))
  {
    DataRowsAreWrites(s.data, Offset(s), s.columns, s.types);
    SetRowWrites(1, s.columns, s.types, Arr(s.columns), true);
    assert AllWrites(Header(s));
    ConcatWrites(Header(s), DataRows(s.data, Offset(s), s.columns, s.types));
  }

  /** Format post-pass over the whole output: every format is the declared,
      non-NULL format of its column over rows `offset` to `offset + M`; with a
      header the range never reaches row 1. */
  lemma RenderFormatsDeclared(s: Sheet)
    requires IntKeyed(s.data)
    ensures FormatsDeclared(Render(s), s.columns, 0, Offset(s), |s.data|, s.formats)
    ensures Truthy(s.includeNames) ==>
              forall p :: 0 <= p < |Render(s)| && Render(s)[p].Format? ==> Render(s)[p].rowFrom > 1
  {
    var pre := Header(s) + DataRows(s.data, Offset(s), s.columns, s.types);
    var t := PostPass(s.columns, 0, Offset(s), |s.data|, s.formats, s.autoSize);
    RenderSplit(s);
    RenderPrefixWrites(s);
    WritesThenPass(pre, t);
    PostPassFormatsDeclared(s.columns, 0, Offset(s), |s.data|, s.formats, s.autoSize);
    assert Render(s) == pre + t;
  }

  /** Every column that declares a non-NULL format gets it, over rows `offset`
      to `offset + M`, and no column gets two formats: formats are issued in
      strictly increasing column order. */
  lemma RenderFormatsApplied(s: Sheet)
    requires IntKeyed(s.data)
    ensures FormatsApplied(Render(s), s.columns, 0, Offset(s), |s.data|, s.formats)
    ensures forall p, q :: 0 <= p < q < |Render(s)| && Render(s)[p].Format? && Render(s)[q].Format? ==>
              Render(s)[p].col < Render(s)[q].col
  {
    var pre := Header(s) + DataRows(s.data, Offset(s), s.columns, s.types);
    var t := PostPass(s.columns, 0, Offset(s), |s.data|, s.formats, s.autoSize);
    var r := Render(s);
    RenderSplit(s);
    RenderPrefixWrites(s);
    PostPassFormatsApplied(s.columns, 0, Offset(s), |s.data|, s.formats, s.autoSize);
    PostPassOrdered(s.columns, 0, Offset(s), |s.data|, s.formats, s.autoSize);
    FormatsAfterWrites(pre, t, s.columns, Offset(s), |s.data|, s.formats);
    assert r == pre + t;
  }

  /** Formats of an ordered post-pass behind cell writes: every declared one
      is present, and they come in strictly increasing column order. */
  lemma FormatsAfterWrites(pre: seq<Instr>, t: seq<Instr>, cols: PArray<Value>, offset: int, rows: nat, formats: PArray<Value>)
    requires AllWrites(pre)
    requires FormatsApplied(t, cols, 0, offset, rows, formats)
    requires PassOrdered(t)
    ensures FormatsApplied(pre + t, cols, 0, offset, rows, formats)
    ensures forall p, q :: 0 <= p < q < |pre + t| && (pre + t)[p].Format? && (pre + t)[q].Format? ==>
              (pre + t)[p].col < (pre + t)[q].col
  {
    forall j | 0 <= j < |cols| && Get(formats, cols[j].key) != Null
      ensures Format(0 + j, offset, offset + rows, Get(formats, cols[j].key)) in pre + t
    {
      assert Format(0 + j, offset, offset + rows, Get(formats, cols[j].key)) in t;
    }
    LiftPassOrdered(pre, t);
  }

  /** Prefixing cell writes keeps the auto-size property of a post-pass. */
  lemma LiftAutoSized(pre: seq<Instr>, t: seq<Instr>, lo: nat, hi: nat, autoSize: Value)
    requires AllWrites(pre)
    requires AutoSized(t, lo, hi, autoSize)
    ensures AutoSized(pre + t, lo, hi, autoSize)
  {
    assert forall c: nat :: AutoSize(c) in pre + t <==> AutoSize(c) in t;
  }

  /** Prefixing cell writes keeps the post-pass order among the non-writes. */
  lemma LiftPassOrdered(pre: seq<Instr>, t: seq<Instr>)
    requires AllWrites(pre)
    requires PassOrdered(t)
    ensures forall p, q :: 0 <= p < q < |pre + t| && !IsWrite((pre + t)[p]) && !IsWrite((pre + t)[q]) ==>
              PassOrder((pre + t)[p]) < PassOrder((pre + t)[q])
  {
    var r := pre + t;
    forall p, q | 0 <= p < q < |r| && !IsWrite(r[p]) && !IsWrite(r[q])
      ensures PassOrder(r[p]) < PassOrder(r[q])
    {
      assert r[p] == t[p - |pre|] && r[q] == t[q - |pre|];
    }
  }

  /** Auto-size over the whole output: when `auto_size` is identical to TRUE,
      columns 0..N-1 are each auto-sized; otherwise none is. */
  lemma RenderAutoSize(s: Sheet)
    requires IntKeyed(s.data)
    ensures AutoSized(Render(s), 0, |s.columns|, s.autoSize)
  {
    var pre := Header(s) + DataRows(s.data, Offset(s), s.columns, s.types);
    var t := PostPass(s.columns, 0, Offset(s), |s.data|, s.formats, s.autoSize);
    RenderSplit(s);
    RenderPrefixWrites(s);
    PostPassAutoSize(s.columns, 0, Offset(s), |s.data|, s.formats, s.autoSize);
    LiftAutoSized(pre, t, 0, |s.columns|, s.autoSize);
    assert Render(s) == pre + t;
  }

  /** Auto-sizes come in strictly increasing column order, so no column is
      auto-sized twice. */
  lemma RenderAutoSizeOrder(s: Sheet)
    requires IntKeyed(s.data)
    ensures forall p, q :: 0 <= p < q < |Render(s)| && Render(s)[p].AutoSize? && Render(s)[q].AutoSize? ==>
              Render(s)[p].col < Render(s)[q].col
  {
    var pre := Header(s) + DataRows(s.data, Offset(s), s.columns, s.types);
    var t := PostPass(s.columns, 0, Offset(s), |s.data|, s.formats, s.autoSize);
    RenderSplit(s);
    RenderPrefixWrites(s);
    PostPassOrdered(s.columns, 0, Offset(s), |s.data|, s.formats, s.autoSize);
    LiftPassOrdered(pre, t);
    assert Render(s) == pre + t;
  }

  /** Every instruction of the data part is written within columns 0..N-1 and
      rows `lo`..`hi` when every record's row lies there. */
  lemma {:induction false} DataRowsWithin(data: PArray<Record>, offset: int, columns: PArray<Value>, types: PArray<Value>, lo: int, hi: int)
    requires IntKeyed(data)
    requires forall i :: 0 <= i < |data| ==> lo <= data[i].key.i + offset <= hi
    ensures forall p :: 0 <= p < |DataRows(data, offset, columns, types)| ==>
              && IsWrite(DataRows(data, offset, columns, types)[p])
              && DataRows(data, offset, columns, types)[p].col < |columns|
              && lo <= DataRows(data, offset, columns, types)[p].row <= hi
    decreases |data|
  {
    if |data| > 0 {
      var head := SetRow(data[0].key.i + offset, columns, types, data[0].value, false);
      var rest := DataRows(data[1..], offset, columns, types);
      forall i | 0 <= i < |data[1..]|
        ensures lo <= data[1..][i].key.i + offset <= hi
      {
        assert data[1..][i] == data[i + 1];
      }
      DataRowsWithin(data[1..], offset, columns, types, lo, hi);
      assert DataRows(data, offset, columns, types) == head + rest;
    }
  }

  /** For list data, cell `j` of the i-th record (from 0) is written at
      column `j` of row `i + offset`. */
  lemma RenderRowOfRecord(s: Sheet, i: nat, j: nat)
    requires ListKeyed(s.data)
    requires IntKeyed(s.data)
    requires i < |s.data| && j < |s.columns|
    ensures HeaderWidth(s) + Slot(i, j, |s.columns|) < |Render(s)|
    ensures IsWrite(Render(s)[HeaderWidth(s) + Slot(i, j, |s.columns|)])
    ensures Render(s)[HeaderWidth(s) + Slot(i, j, |s.columns|)].col == j
    ensures Render(s)[HeaderWidth(s) + Slot(i, j, |s.columns|)].row == i + Offset(s)
  {
    RenderDataCell(s, i, j);
  }

  /** For list data, every write lies within columns 0..N-1; the header, if
      any, is alone on row 1, and the data rows are exactly
      `offset`..`offset + M - 1`. */
  lemma RenderWriteRows(s: Sheet)
    requires ListKeyed(s.data)
    requires IntKeyed(s.data)
    ensures forall p :: 0 <= p < |Render(s)| && IsWrite(Render(s)[p]) ==>
              && Render(s)[p].col < |s.columns|
              && (if p < HeaderWidth(s) then Render(s)[p].row == 1
                  else Offset(s) <= Render(s)[p].row < Offset(s) + |s.data|)
  {
    RenderWrites(s);
    RenderSplit(s);
    var h := Header(s);
    var d := DataRows(s.data, Offset(s), s.columns, s.types);
    DataRowsWithin(s.data, Offset(s), s.columns, s.types, Offset(s), Offset(s) + |s.data| - 1);
    forall p | 0 <= p < |Render(s)| && IsWrite(Render(s)[p])
      ensures Render(s)[p].col < |s.columns|
      ensures if p < HeaderWidth(s) then Render(s)[p].row == 1
              else Offset(s) <= Render(s)[p].row < Offset(s) + |s.data|
    {
      if p < |h| {
        assert Render(s)[p] == h[p];
      } else {
        assert Render(s)[p] == d[p - |h|];
      }
    }
  }

  /** Both halves together: where each record's cells go, and which rows the
      writes occupy. */
  lemma RenderRows(s: Sheet)
    requires ListKeyed(s.data)
    requires IntKeyed(s.data)
    ensures forall i, j :: 0 <= i < |s.data| && 0 <= j < |s.columns| ==>
              && HeaderWidth(s) + Slot(i, j, |s.columns|) < |Render(s)|
              && IsWrite(Render(s)[HeaderWidth(s) + Slot(i, j, |s.columns|)])
              && Render(s)[HeaderWidth(s) + Slot(i, j, |s.columns|)].col == j
              && Render(s)[HeaderWidth(s) + Slot(i, j, |s.columns|)].row == i + Offset(s)
    ensures forall p :: 0 <= p < |Render(s)| && IsWrite(Render(s)[p]) ==>
              && Render(s)[p].col < |s.columns|
              && (if p < HeaderWidth(s) then Render(s)[p].row == 1
                  else Offset(s) <= Render(s)[p].row < Offset(s) + |s.data|)
  {
    forall i, j | 0 <= i < |s.data| && 0 <= j < |s.columns|
      ensures && HeaderWidth(s) + Slot(i, j, |s.columns|) < |Render(s)|
              && IsWrite(Render(s)[HeaderWidth(s) + Slot(i, j, |s.columns|)])
              && Render(s)[HeaderWidth(s) + Slot(i, j, |s.columns|)].col == j
              && Render(s)[HeaderWidth(s) + Slot(i, j, |s.columns|)].row == i + Offset(s)
    {
      RenderRowOfRecord(s, i, j);
    }
    RenderWriteRows(s);
  }

  /** Some instruction of `r` writes the cell at column `col` of row `row`. */
  predicate WritesCell(r: seq<Instr>, col: nat, row: int)
  {
    exists p :: 0 <= p < |r| && IsWrite(r[p]) && r[p].col == col && r[p].row == row
  }

  /** Without a header and with list data, the writes are exactly M * N
      instructions and their coordinates are exactly the rectangle of columns
      0..N-1 by rows 1..M. */
  lemma RenderRectangle(s: Sheet)
    requires ListKeyed(s.data)
    requires IntKeyed(s.data)
    requires !Truthy(s.includeNames)
    ensures forall p :: 0 <= p < |Render(s)| ==> (IsWrite(Render(s)[p]) <==> p < |s.data| * |s.columns|)
    ensures forall p :: 0 <= p < |Render(s)| && IsWrite(Render(s)[p]) ==>
              Render(s)[p].col < |s.columns| && 1 <= Render(s)[p].row <= |s.data|
    ensures forall i, j :: 1 <= i <= |s.data| && 0 <= j < |s.columns| ==> WritesCell(Render(s), j, i)
  {
    RenderWrites(s);
    RenderRows(s);
    forall i, j | 1 <= i <= |s.data| && 0 <= j < |s.columns|
      ensures WritesCell(Render(s), j, i)
    {
      var p := Slot(i - 1, j, |s.columns|);
      assert Slot(i - 1, j, |s.columns|) < |s.data| * |s.columns| by {
        SlotBound(i - 1, j, |s.data|, |s.columns|);
      }
      assert IsWrite(Render(s)[p]);
    }
  }

  /** The slots of an M by N block lie below M * N. */
  lemma SlotBound(i: nat, j: nat, m: nat, n: nat)
    requires i < m && j < n
    ensures Slot(i, j, n) < m * n
  {
    assert i * n + j < i * n + n == (i + 1) * n <= m * n;
  }

  /** The format range ends at `offset + M`, one row past the last data row:
      for list data no cell is ever written on that row, yet every format
      covers it. */
  lemma FormatRangePastLastRow(s: Sheet)
    requires ListKeyed(s.data)
    requires IntKeyed(s.data)
    ensures forall p :: 0 <= p < |Render(s)| && IsWrite(Render(s)[p]) ==>
              Render(s)[p].row != Offset(s) + |s.data|
    ensures forall p :: 0 <= p < |Render(s)| && Render(s)[p].Format? ==>
              Render(s)[p].rowTo == Offset(s) + |s.data|
  {
    RenderRows(s);
    RenderFormatsDeclared(s);
  }

  /** Under the declared defaults (`include_names` and `auto_size` both FALSE)
      there is no header, the data offset is 1, and no column is auto-sized;
      the default helper, with no columns and no data, renders nothing. */
  lemma DefaultFlags(s: Sheet)
    requires IntKeyed(s.data)
    requires s.includeNames == Defaults.includeNames && s.autoSize == Defaults.autoSize
    ensures HeaderWidth(s) == 0 && Offset(s) == 1
    ensures forall p :: 0 <= p < |Render(s)| ==> !Render(s)[p].AutoSize?
    ensures Render(Defaults) == []
  {
    RenderAutoSize(s);
    forall p | 0 <= p < |Render(s)|
      ensures !Render(s)[p].AutoSize?
    {
      assert Render(s)[p] in Render(s);
    }
  }
}
