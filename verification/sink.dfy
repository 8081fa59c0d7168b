/**
  The calls `render()` and `_set_row()` of classes/worksheet.php make on the
  underlying PHPExcel worksheet, as instructions.
 */
module Sink {
  import opened PhpValue

  /** One call the renderer makes on the PHPExcel worksheet. Columns are
      zero-based indices, rows are the sheet's one-based row numbers. */
  datatype Instr =
    | SetTyped(col: nat, row: int, value: Value, cellType: Value)  // setCellValueExplicit
    | SetUntyped(col: nat, row: int, value: Value)                 // setCellValue
    | Format(col: nat, rowFrom: int, rowTo: int, code: Value)      // getStyle(range)->...->setFormatCode
    | AutoSize(col: nat)                                           // getColumnDimension(..)->setAutoSize(TRUE)

  predicate IsWrite(ins: Instr)
  {
    ins.SetTyped? || ins.SetUntyped?
  }

  /** The cell write `_set_row` issues: typed when the resolved type is not NULL. */
  function Write(col: nat, row: int, value: Value, cellType: Value): Instr
  {
    if cellType != Null then SetTyped(col, row, value, cellType)
    else SetUntyped(col, row, value)
  }

  /** Position of a post-pass instruction: per column, the format comes before the auto-size. */
  function PassOrder(ins: Instr): int
  {
    match ins
    case Format(col, _, _, _) => 2 * col
    case AutoSize(col) => 2 * col + 1
    case _ => -1
  }
}
