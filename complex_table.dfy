/**
  * The users table (`ColumnsTable` in src/views/admin/users/components/ComplexTable.js): how
  * the column descriptors become table columns, and how each cell's content is chosen from
  * its column's `cellType` and the runtime type of its value.
  */
module ComplexTable {

  /** One entry of the `columnsData` prop. A descriptor without a `cellType` behaves like
      one whose `cellType` is any string other than "text" and "progress". */
  datatype ColumnDescriptor = ColumnDescriptor(header: string, key: string, cellType: string)

  /** A column as handed to the table: `Header`, `accessor` and `cellType`. */
  datatype Column = Column(header: string, accessor: string, cellType: string)

  /** A cell value: a JavaScript boolean, or any other value (`V`). */
  datatype CellValue<V> = BoolValue(b: bool) | OtherValue(v: V)

  /** A rendered row cell: its column and its value. */
  datatype Cell<V> = Cell(column: Column, value: CellValue<V>)

  datatype Icon = MdCheckCircle | MdCancel

  /** What a cell shows: the value as bold text, a status icon with a label, a progress bar
      filled to the value, or the value as it is. */
  datatype Rendering<V> =
    | TextCell(text: CellValue<V>)
    | StatusCell(icon: Icon, color: string, statusText: string)
    | ProgressBar(progress: V)
    | RawCell(raw: V)

  /** The column mapping: one column per descriptor, in order, carrying its header, key and
      cell type. */
  function Columns(columnsData: seq<ColumnDescriptor>): (columns: seq<Column>)
    ensures |columns| == |columnsData|
    ensures forall i :: 0 <= i < |columns| ==>
      columns[i] == Column(columnsData[i].header, columnsData[i].key, columnsData[i].cellType)
  {
    if columnsData == [] then []
    else
      var d := columnsData[0];
      [Column(d.header, d.key, d.cellType)] + Columns(columnsData[1..])
  }

  /** The per-cell if-chain, tried in this order: a "text" column shows any value as text;
      otherwise a boolean shows as a status; otherwise a "progress" column shows a bar;
      otherwise the value is shown unchanged. */
  function RenderCell<V>(cellType: string, value: CellValue<V>): (r: Rendering<V>)
    ensures r.TextCell? <==> cellType == "text"
    ensures r.TextCell? ==> r.text == value
    ensures r.StatusCell? <==> cellType != "text" && value.BoolValue?
    ensures r.StatusCell? && value.b ==> r == StatusCell(MdCheckCircle, "green.500", "Active")
    ensures r.StatusCell? && !value.b ==> r == StatusCell(MdCancel, "red.500", "Inactive")
    ensures r.ProgressBar? <==> cellType == "progress" && value.OtherValue?
    ensures r.ProgressBar? ==> r.progress == value.v
    ensures r.RawCell? <==> cellType != "text" && cellType != "progress" && value.OtherValue?
    ensures r.RawCell? ==> r.raw == value.v
  {
    if cellType == "text" then
      TextCell(value)
    else if value.BoolValue? then
      StatusCell(
        if value.b then MdCheckCircle else MdCancel,
        if value.b then "green.500" else "red.500",
        if value.b then "Active" else "Inactive")
    else if cellType == "progress" then
      ProgressBar(value.v)
    else
      RawCell(value.v)
  }

  /** A boolean in a "progress" column is a status, never a bar: the boolean test comes
      before the progress test. */
  lemma BooleanInProgressColumnIsStatus<V>(b: bool)
    ensures RenderCell<V>("progress", BoolValue(b)).StatusCell?
    ensures !RenderCell<V>("progress", BoolValue(b)).ProgressBar?
  {
  }

  /** The cells of one row, each rendered by its own column's type, in order. */
  function RenderRow<V>(cells: seq<Cell<V>>): (rendered: seq<Rendering<V>>)
    ensures |rendered| == |cells|
    ensures forall i :: 0 <= i < |cells| ==>
      rendered[i] == RenderCell(cells[i].column.cellType, cells[i].value)
  {
    if cells == [] then []
    else [RenderCell(cells[0].column.cellType, cells[0].value)] + RenderRow(cells[1..])
  }
}
