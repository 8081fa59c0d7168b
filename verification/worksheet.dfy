/**
  The `Worksheet` helper (classes/worksheet.php): its state, the common
  getter/setter behind `columns()`, `data()` and `formats()`, and `render()`,
  which turns the column map and the data rows into the list of calls made on
  the underlying PHPExcel worksheet.
 */
module Worksheet {
  import opened PhpArray
  import opened PhpValue
  import opened Records
  import opened Sink

  /** The helper's protected properties. `columns` maps column keys to labels;
      `data` holds the records under their row keys; `formats` and `types` map
      column keys to number-format codes and cell data types. The two flags are
      arbitrary PHP values: `include_names` is tested for truthiness,
      `auto_size` for identity with TRUE. */
  datatype Sheet = Sheet(
    columns: PArray<Value>,
    data: PArray<Record>,
    formats: PArray<Value>,
    types: PArray<Value>,
    includeNames: Value,
    autoSize: Value)

  /** The property defaults declared by the class. */
  const Defaults: Sheet := Sheet([], [], [], [], Bool(false), Bool(false))

  // ---------------------------------------------------------------------------
  // _get_set and its wrappers

  /** The `$key` argument of `_get_set`: NULL, an array that replaces the
      whole property, or a single key. (An Iterator argument is not modelled.) */
  datatype KeyArg<V> = NoKey | Whole(replacement: PArray<V>) | Single(key: Key)

  /** What `_get_set` does to one property: reads it, or writes a new value. */
  datatype Access<V> = Read(current: PArray<V>) | Wrote(updated: PArray<V>)

  function GetSet<V>(property: PArray<V>, key: KeyArg<V>, value: V): (r: Access<V>)
    ensures key.NoKey? <==> r.Read?
    ensures r.Read? ==> r.current == property
    ensures key.Whole? ==> r == Wrote(key.replacement)
    ensures key.Single? ==> r.Wrote? && Find(r.updated, key.key) == Some(value)
    ensures key.Single? ==> forall k :: k != key.key ==> Find(r.updated, k) == Find(property, k)
    ensures key.Single? && WellFormed(property) ==> WellFormed(r.updated)
  {
    match key
    case NoKey => Read(property)
    case Whole(a) => Wrote(a)
    case Single(k) =>
      PutWellFormed(property, k, value);
      Wrote(Put(property, k, value))
  }

  /** What a wrapper returns: the property when reading, the updated helper
      (`$this`, for chaining) when writing. */
  datatype Answer<V> = Got(property: PArray<V>) | Chain(sheet: Sheet)

  /** `columns($key, $value)`. */
  function Columns(s: Sheet, key: KeyArg<Value>, value: Value): (r: Answer<Value>)
    ensures key.NoKey? <==> r.Got?
    ensures r.Got? ==> r.property == s.columns
    ensures r.Chain? ==> r.sheet == s.(columns := r.sheet.columns)
    ensures r.Chain? && key.Whole? ==> r.sheet.columns == key.replacement
    ensures r.Chain? && key.Single? ==> Find(r.sheet.columns, key.key) == Some(value)
    ensures r.Chain? && key.Single? ==>
              forall k :: k != key.key ==> Find(r.sheet.columns, k) == Find(s.columns, k)
  {
    match GetSet(s.columns, key, value)
    case Read(p) => Got(p)
    case Wrote(p) => Chain(s.(columns := p))
  }

  /** `data($key, $value)`. */
  function Data(s: Sheet, key: KeyArg<Record>, value: Record): (r: Answer<Record>)
    ensures key.NoKey? <==> r.Got?
    ensures r.Got? ==> r.property == s.data
    ensures r.Chain? ==> r.sheet == s.(data := r.sheet.data)
    ensures r.Chain? && key.Whole? ==> r.sheet.data == key.replacement
    ensures r.Chain? && key.Single? ==> Find(r.sheet.data, key.key) == Some(value)
    ensures r.Chain? && key.Single? ==>
              forall k :: k != key.key ==> Find(r.sheet.data, k) == Find(s.data, k)
  {
    match GetSet(s.data, key, value)
    case Read(p) => Got(p)
    case Wrote(p) => Chain(s.(data := p))
  }

  /** `formats($key, $value)`. */
  function Formats(s: Sheet, key: KeyArg<Value>, value: Value): (r: Answer<Value>)
    ensures key.NoKey? <==> r.Got?
    ensures r.Got? ==> r.property == s.formats
    ensures r.Chain? ==> r.sheet == s.(formats := r.sheet.formats)
    ensures r.Chain? && key.Whole? ==> r.sheet.formats == key.replacement
    ensures r.Chain? && key.Single? ==> Find(r.sheet.formats, key.key) == Some(value)
    ensures r.Chain? && key.Single? ==>
              forall k :: k != key.key ==> Find(r.sheet.formats, k) == Find(s.formats, k)
  {
    match GetSet(s.formats, key, value)
    case Read(p) => Got(p)
    case Wrote(p) => Chain(s.(formats := p))
  }

  // ---------------------------------------------------------------------------
  // _set_row

  /** The `$type` in force for a cell: TYPE_STRING throughout the header row,
      otherwise whatever `Arr::get($this->types, $key)` yields (NULL when the
      column declares no type). */
  function CellType(types: PArray<Value>, key: Key, header: bool): Value
  {
    if header then TypeString else Get(types, key)
  }

  /** The `foreach` of `_set_row` from the column counter `col` onwards. */
  function RowFrom(row: int, cols: PArray<Value>, col: nat, types: PArray<Value>, record: Record, header: bool): (r: seq<Instr>)
    ensures |r| == |cols|
    ensures forall j {:trigger r[j]} :: 0 <= j < |cols| ==>
              r[j] == Write(col + j, row, Extract(record, cols[j].key), CellType(types, cols[j].key, header))
    decreases |cols|
  {
    if |cols| == 0 then []
    else
      var key := cols[0].key;
      [Write(col, row, Extract(record, key), CellType(types, key, header))]
        + RowFrom(row, cols[1..], col + 1, types, record, header)
  }

  /** `_set_row($row, $data, $header)`: one write per column, in column order,
      at column index 0, 1, ... of `row`. */
  function SetRow(row: int, columns: PArray<Value>, types: PArray<Value>, record: Record, header: bool): (r: seq<Instr>)
    ensures |r| == |columns|
    ensures forall j {:trigger r[j]} :: 0 <= j < |columns| ==>
              r[j] == Write(j, row, Extract(record, columns[j].key), CellType(types, columns[j].key, header))
  {
    RowFrom(row, columns, 0, types, record, header)
  }

  // ---------------------------------------------------------------------------
  // render

  /** Every row key is an integer, so that `$row + $offset` is a row number. */
  predicate IntKeyed(data: PArray<Record>)
  {
    forall i :: 0 <= i < |data| ==> data[i].key.IntKey?
  }

  /** The data offset added to each record's key to give its row: 2 below a
      header, 1 otherwise. For list data it is the first data row. */
  function Offset(s: Sheet): int
  {
    if Truthy(s.includeNames) then 2 else 1
  }

  /** Index of cell `j` of data row `i` in the data part of the output. */
  function Slot(i: nat, j: nat, width: nat): nat
  {
    i * width + j
  }

  /** The data loop of `render`: each record at row `key + offset`. */
  function DataRows(data: PArray<Record>, offset: int, columns: PArray<Value>, types: PArray<Value>): (r: seq<Instr>)
    requires IntKeyed(data)
    ensures |r| == |data| * |columns|
    decreases |data|
  {
    if |data| == 0 then []
    else
      var rest := DataRows(data[1..], offset, columns, types);
      assert |rest| == (|data| - 1) * |columns|;
      assert |columns| + (|data| - 1) * |columns| == |data| * |columns|;
      SetRow(data[0].key.i + offset, columns, types, data[0].value, false) + rest
  }

  /** One iteration of the column loop at the end of `render`: a format over
      rows `offset`..`offset + rows` when the column declares one, then an
      auto-size when `auto_size === TRUE`. */
  function ColumnPost(col: nat, code: Value, offset: int, rows: nat, autoSize: Value): seq<Instr>
  {
    if code != Null && autoSize == Bool(true) then [Format(col, offset, offset + rows, code), AutoSize(col)]
    else if code != Null then [Format(col, offset, offset + rows, code)]
    else if autoSize == Bool(true) then [AutoSize(col)]
    else []
  }

  /** The column loop at the end of `render`, from the column counter `col` onwards. */
  function PostPass(cols: PArray<Value>, col: nat, offset: int, rows: nat, formats: PArray<Value>, autoSize: Value): (r: seq<Instr>)
    ensures forall p :: 0 <= p < |r| ==> (r[p].Format? || r[p].AutoSize?) && col <= r[p].col < col + |cols|
    decreases |cols|
  {
    if |cols| == 0 then []
    else
      ColumnPost(col, Get(formats, cols[0].key), offset, rows, autoSize)
        + PostPass(cols[1..], col + 1, offset, rows, formats, autoSize)
  }

  /** The header row's cells: the column labels, read from the column map
      itself as if it were a keyed record. */
  function Header(s: Sheet): seq<Instr>
  {
    if Truthy(s.includeNames) then SetRow(1, s.columns, s.types, Arr(s.columns), true) else []
  }

  /** `render()`: header row, data rows, then per-column formats and auto-size. */
  function Render(s: Sheet): (r: seq<Instr>)
    requires IntKeyed(s.data)
    ensures |r| >= (if Truthy(s.includeNames) then |s.columns| else 0) + |s.data| * |s.columns|
  {
    Header(s)
      + DataRows(s.data, Offset(s), s.columns, s.types)
      + PostPass(s.columns, 0, Offset(s), |s.data|, s.formats, s.autoSize)
  }
}
