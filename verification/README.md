# Worksheet render model (kohana-phpexcel)

A Dafny model of the `Worksheet` helper class of kohana-phpexcel
(`classes/worksheet.php`). The helper binds a column map and a list of records
to a PHPExcel worksheet. `render()` optionally writes a header row of column
labels. It then writes one row per record, one cell per column. Last, it
applies per-column number formats and auto-size. The generic getter/setter
`_get_set()` maintains the column map, the data and the formats through
`columns()`, `data()` and `formats()`.

The model is functional. `Render` returns the list of calls the PHP code makes
on the worksheet, as `Sink.Instr` values:

- `SetTyped(col, row, value, type)` stands for `setCellValueExplicit`.
- `SetUntyped(col, row, value)` stands for `setCellValue`.
- `Format(col, rowFrom, rowTo, code)` stands for `getStyle(range)->getNumberFormat()->setFormatCode`.
- `AutoSize(col)` stands for `getColumnDimension(..)->setAutoSize(TRUE)`.

Columns are zero-based indices. Rows are the sheet's one-based row numbers.

Files and modules:

- `php_array.dfy`, module `PhpArray`: PHP's ordered array. Keys are distinct, a write replaces a value in place or appends a new key, and a list `array(a, b, ...)` has keys 0, 1, ….
- `php_value.dfy`, module `PhpValue`: PHP scalars, truthiness and the `$a[$k]` / `Arr::get` read.
- `record.dfy`, module `Records`: the three record shapes and `Extract`, the per-cell value lookup of `_set_row`.
- `sink.dfy`, module `Sink`: the instructions.
- `worksheet.dfy`, module `Worksheet`: the helper's state, `_get_set` and its wrappers, `_set_row` (`SetRow`), the data loop (`DataRows`), the column loop (`PostPass`) and `render()` (`Render`).
- `render_props.dfy`, module `RenderParts`: properties of one row, the data loop and the column loop.
- `render_sheet.dfy`, module `RenderSheet`: properties of a whole render.
- `render_examples.dfy`, module `RenderExamples`: two concrete renders built from the class's doc-comment examples.

Where the code and its doc-comments disagree, the model follows the code:

- A data cell whose column declares no type is written untyped (`setCellValue`). The doc-comment of `$types` says the default type is `TYPE_STRING`, but `Arr::get($this->types, $key)` yields NULL, and NULL selects the untyped branch. `RowTypes` and `KeyedRecordWithHeader` state this.
- An array record is read by the column KEY, never by the column's position. Positional records work only because list-style column maps have keys 0, 1, 2, …. `PositionalColumns` states that case. `NamedColumnsMissListRecord` states that a list-style record under named columns yields NULL in every cell.
- The format range runs from `offset` to `offset + rows`. That is one row past the last data row. `FormatRangePastLastRow` states this.
- `include_names` is tested for PHP truthiness, but `auto_size` must be identical to TRUE. Both flags are therefore modelled as PHP values rather than booleans.

Rendering is a pure function of the helper's state. Rendering the same state twice therefore gives the same instruction list by construction.

## Model

| member | source | states |
|---|---|---|
| PhpArray.Put | classes/worksheet.php:260 | after `$a[$k] = $v` the key `k` holds `v` and every other key holds what it held before |
| PhpArray.PutKeys | classes/worksheet.php:260 | a write keeps every existing key at its position; a key not yet present is appended last |
| PhpArray.PutWellFormed | classes/worksheet.php:260 | a single-key write keeps the array's keys distinct |
| PhpArray.FromListFind | classes/worksheet.php:21-23 | a list-style array has keys 0..n-1: integer key `n` finds the n-th element, a string key finds nothing |
| PhpValue.GetSpec | classes/worksheet.php:283 | reading a key yields the value of the entry holding it, and NULL when no entry holds it |
| Records.Extract | classes/worksheet.php:280-295 | a non-NULL cell value never comes from a record of another shape; for an object it is the method's value or the field's value of that name, and with no such method it is non-NULL exactly when the field is set |
| Records.FieldWhenNoMethod | classes/worksheet.php:291-294 | an object with no method named like the column key yields its set field of that name, and NULL when the field is unset or NULL |
| Records.ArrayRecordByKey | classes/worksheet.php:281-284 | a keyed record yields the value under the column key, and NULL (not an error) when the key is missing |
| Records.ListRecordByKey | classes/worksheet.php:283 | a list-style record answers integer key `n` with its n-th element, and NULL otherwise |
| Records.MethodWinsOverField | classes/worksheet.php:287-290 | an object's method named like the column key shadows a field of the same name |
| Records.NullFieldIsAbsent | classes/worksheet.php:291-294 | a field holding NULL reads exactly like an absent field (`isset` is false for both) |
| Worksheet.GetSet | classes/worksheet.php:248-263 | a NULL key reads the property unchanged; an array replaces it whole; a single key sets only that key and leaves every other key unchanged |
| Worksheet.Columns | classes/worksheet.php:154-157 | reads the column map, or returns the helper with only the column map changed as `_get_set` prescribes |
| Worksheet.Data | classes/worksheet.php:162-165 | reads the data, or returns the helper with only the data changed as `_get_set` prescribes |
| Worksheet.Formats | classes/worksheet.php:170-173 | reads the formats, or returns the helper with only the formats changed as `_get_set` prescribes |
| Worksheet.SetRow | classes/worksheet.php:273-314 | exactly one write per column, in column order, at column index j of the given row, carrying the value extracted by column j's key (`Extract`) and the resolved type (`CellType`: TYPE_STRING in the header, else `Get` of `types`); `Sink.Write` picks the typed call exactly when that type is non-NULL |
| Worksheet.DataRows | classes/worksheet.php:194-199 | the data loop issues exactly M × N instructions for M records and N columns |
| Worksheet.PostPass | classes/worksheet.php:202-220 | the column loop issues only formats and auto-sizes, at column indices within the column map; each column's step is `ColumnPost`, with the format read by `Get` |
| Worksheet.Render | classes/worksheet.php:180-222 | the output holds at least the header cells and the M × N data cells; the header (`Header`) and the offset 2 (`Offset`) apply exactly when `include_names` is truthy (`PhpValue.Truthy`: not NULL, FALSE, 0, "" or "0") |
| RenderParts.RowTypes | classes/worksheet.php:296-310 | a data cell is typed with the column's declared type and untyped exactly when none is declared; a header cell is always typed TYPE_STRING, whatever `types` holds |
| RenderParts.PositionalColumns | classes/worksheet.php:278-284 | under list-style columns (keys 0..N-1) a list-style record of at least N elements has its j-th element land in column j; a shorter record gets NULL in the trailing cells (`ListRecordByKey`) |
| RenderParts.NamedColumnsMissListRecord | classes/worksheet.php:283 | under string-keyed columns every cell of a list-style record is NULL, because lookup is by key |
| RenderParts.PostPassOrdered | classes/worksheet.php:202-220 | the column loop's instructions come strictly by column, format before auto-size, so no column gets two of a kind |
| RenderParts.PostPassFormatsDeclared | classes/worksheet.php:206-212 | every format issued is its column's non-NULL format, over rows offset..offset + rows |
| RenderParts.PostPassFormatsApplied | classes/worksheet.php:206-212 | every column with a non-NULL format gets that format over rows offset..offset + rows |
| RenderParts.PostPassAutoSize | classes/worksheet.php:213-218 | every column of the pass is auto-sized when `auto_size === TRUE`, and none otherwise |
| RenderParts.DataRowsCell | classes/worksheet.php:194-199 | cell j of record i sits at position i·N + j of the data part, at column j of row key_i + offset, with the extracted value and the declared type |
| RenderParts.DataRowsAreWrites | classes/worksheet.php:194-199 | the data loop issues only cell writes |
| RenderSheet.RenderHeaderRow | classes/worksheet.php:183-187 | with the header on, the output opens with the N labels in column order on row 1, each typed TYPE_STRING, and the data offset is 2 (for list data, data starts at row 2) |
| RenderSheet.RenderDataCell | classes/worksheet.php:183-199 | after the header cells come the data cells, cell j of record i at column j of row key_i + offset (offset 2 with a header, 1 without) |
| RenderSheet.RenderWrites | classes/worksheet.php:180-222 | the cell writes are exactly the first H + M × N instructions, and everything after them is a format or an auto-size |
| RenderSheet.RenderTail | classes/worksheet.php:180-222 | the column loop's output is exactly the output's suffix after the H + M × N cell writes, and that suffix is strictly ordered by column, each column's format before its auto-size |
| RenderSheet.RenderFormatsDeclared | classes/worksheet.php:202-212 | every format in the output is its column's non-NULL format over rows offset..offset + M; with a header it never reaches row 1 |
| RenderSheet.RenderFormatsApplied | classes/worksheet.php:202-212 | every column with a non-NULL format gets it, and formats appear in strictly increasing column order, so at most once per column |
| RenderSheet.RenderAutoSize | classes/worksheet.php:213-219 | with `auto_size === TRUE` each column 0..N-1 is auto-sized; otherwise no column is |
| RenderSheet.RenderAutoSizeOrder | classes/worksheet.php:202-219 | auto-sizes appear in strictly increasing column order, so each column is auto-sized at most once |
| RenderSheet.RenderRowOfRecord | classes/worksheet.php:194-199 | for list data cell j of the i-th record is a write at column j of row i + offset |
| RenderSheet.RenderWriteRows | classes/worksheet.php:183-199 | for list data every write lies in columns 0..N-1; header writes are alone on row 1, and data writes lie in rows offset..offset + M - 1 |
| RenderSheet.RenderRectangle | classes/worksheet.php:188-199 | with no header and list data there are exactly M × N writes, and their coordinates are the rectangle of columns 0..N-1 by rows 1..M |
| RenderSheet.FormatRangePastLastRow | classes/worksheet.php:209 | for list data (keys 0..M-1) every format range ends on row offset + M, a row on which no cell is written |
| RenderSheet.DefaultFlags | classes/worksheet.php:16-120 | under the declared defaults (`include_names` and `auto_size` FALSE) there is no header, the data offset is 1 (for list data, data starts at row 1) and nothing is auto-sized; the default helper renders nothing |
| RenderExamples.KeyedRecordWithHeader | classes/worksheet.php:27-68 | keyed record with header: labels typed as strings on row 1, data untyped on row 2 |
| RenderExamples.ObjectRecordWithFormat | classes/worksheet.php:33-88 | object record: the method value wins over the field; the declared type, the format over rows 1..2 and the auto-sizes appear as the code orders them |

## Left out

- The constructor and `title()` (classes/worksheet.php:132-149, 227-238) are not modelled. They register the sheet with a PHPExcel document and get or set its title; that behaviour lives in PHPExcel.
- `PHPExcel_Cell::stringFromColumnIndex` and the A1-style coordinate strings are not modelled. Coordinates stay (column index, row) pairs.
- Cell storage and style objects are not modelled. Each call on the worksheet is an instruction appended to the output list. Failures raised by PHPExcel are not modelled either.
- The return value of `render()` (the PHPExcel worksheet) is replaced by the instruction list. The row counter `$rows` is the number of records, `|data|`.
- Render: requires every data key to be an integer, because the loop uses the key as the row number. With a string key, PHP's arithmetic coercion decides the row, and that depends on the PHP version. Placement by position (`RenderRowOfRecord`, `RenderWriteRows`, `RenderRectangle`, `FormatRangePastLastRow`) is stated for list data, keys 0..M-1. With other integer keys a record can land on row offset + M, inside the format range; a negative key puts a record on row 1, over the header labels, or on row 0 or below.
- Records.Extract: methods are looked up by exact name. PHP's case-insensitive method names, `__call` / `__isset` magic and private methods are not modelled. A method is represented by the value it returns, and its side effects are not modelled.
- The undefined-index notice PHP raises for a missing array key is not modelled. The read yields NULL, as in PHP.
- Values are NULL, booleans, integers and strings. Floats and nested arrays as cell values are not modelled.
- Keys are PHP's normalised keys: an integer, or a string that is not the canonical decimal spelling of an integer ("1.5", "1e3" and "08" stay strings). PHP's conversion of bool, float, NULL and decimal-integer-string keys is not modelled.
- Worksheet.GetSet: only the `is_array` branch of the whole-property write is modelled; `Whole` carries an array. Passing an Iterator stores the object itself, and a later `render()` then reads the header labels through the object branch of `_set_row` and cannot index or re-walk a one-shot Iterator. `Render` is modelled only for array-valued properties.
- `$types` has no public setter in the class (there is no `types()` wrapper); the model takes it as part of the state, as a subclass would declare it.
