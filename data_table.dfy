/** The positions data table (app/admin/positions/data-table.tsx): the
    page's action handlers wired into the "actions" column only, one body
    row per row of the table's row model or a single placeholder row, and
    the table's independent state slots. The action-handler bag and its
    optional-call dispatch are shared by the column definitions. */
module DataTable {
  import opened JsPrelude
  import SearchForm

  /** The names of the handlers a caller supplies; a name not in the set is
      an undefined handler. */
  type Handlers = set<string>

  /** A handler invoked with a row's record. */
  datatype Invocation<R> = Call(handler: string, record: R)

  /** `action?.[name]?.(record)`: the call made, or nothing when the bag
      lacks the handler. */
  function Dispatch<R>(handlers: Handlers, name: string, record: R): (r: Option<Invocation<R>>)
    ensures r.Some? <==> name in handlers
    ensures r.Some? ==> r.value.handler == name && r.value.record == record
  {
    if name in handlers then Some(Call(name, record)) else None
  }

  /** The badge variants the cells use. */
  datatype BadgeVariant = DefaultVariant | Secondary | Outline | Destructive

  /** A clickable row action: its caption and the name of the handler it
      calls with the row's record. */
  datatype RowAction = RowAction(caption: string, handler: string)

  /** Clicking an action: its handler called with the record, or nothing
      when the handler is not supplied. */
  function Click<R>(handlers: Handlers, action: RowAction, record: R): Option<Invocation<R>>
  {
    Dispatch(handlers, action.handler, record)
  }

  /** The handler props of the positions table. */
  const PositionHandlerNames: set<string> :=
    {"onView", "onEdit", "onDelete", "onViewUsers", "onDisable", "onEnable"}

  /** A column's cell: its own definition, or the cell columnsWithActions
      installs on the actions column, carrying the handler bag. */
  datatype CellDef = OwnCell | ActionsCell(handlers: Handlers)

  /** A table column: its descriptor (the part the search form reads),
      whether it has a `render` function, and its cell. */
  datatype TableColumn = TableColumn(desc: SearchForm.Column, hasRender: bool, cell: CellDef)

  /** The descriptors of a column list, as the search form receives them. */
  function Descriptors(columns: seq<TableColumn>): (r: seq<SearchForm.Column>)
    ensures |r| == |columns|
    ensures forall i :: 0 <= i < |r| ==> r[i] == columns[i].desc
  {
    seq(|columns|, i requires 0 <= i < |columns| => columns[i].desc)
  }

  /** What a cell yields for one row: the column's own cell, a call
      render(null, record, rowIndex, handlers), or undefined. */
  datatype CellOutput<R> = ColumnCell | RenderCall(record: R, rowIndex: int, handlers: Handlers) | Undefined

  function CellFor<R>(col: TableColumn, record: R, rowIndex: int): CellOutput<R>
  {
    match col.cell
    case OwnCell => ColumnCell
    case ActionsCell(h) => if col.hasRender then RenderCall(record, rowIndex, h) else Undefined
  }

  /** columnsWithActions: the "actions" column keeps every field and gets a
      cell that renders with the supplied handlers; all other columns are
      returned as they are, in the same order. */
  function ColumnsWithActions(columns: seq<TableColumn>, supplied: Handlers): (r: seq<TableColumn>)
    ensures |r| == |columns|
    ensures forall i :: 0 <= i < |r| && columns[i].desc.id != "actions" ==> r[i] == columns[i]
    ensures forall i :: 0 <= i < |r| && columns[i].desc.id == "actions" ==>
      r[i].desc == columns[i].desc && r[i].hasRender == columns[i].hasRender
  {
    seq(|columns|, i requires 0 <= i < |columns| =>
      if columns[i].desc.id == "actions"
      then columns[i].(cell := ActionsCell(supplied * PositionHandlerNames))
      else columns[i])
  }

  /** For every row, the actions column's cell calls its render with the
      row's record, the row index and exactly the supplied handlers among
      the six, or yields undefined when the column has no render; every
      other column renders its own cell. */
  lemma ActionsCellRendersRecord<R>(columns: seq<TableColumn>, supplied: Handlers, i: int, record: R, rowIndex: int)
    requires 0 <= i < |columns|
    requires forall j :: 0 <= j < |columns| ==> columns[j].cell == OwnCell
    ensures var c := ColumnsWithActions(columns, supplied)[i];
      && (columns[i].desc.id == "actions" && columns[i].hasRender ==>
            CellFor(c, record, rowIndex) == RenderCall(record, rowIndex, supplied * PositionHandlerNames))
      && (columns[i].desc.id == "actions" && !columns[i].hasRender ==> CellFor(c, record, rowIndex) == Undefined)
      && (columns[i].desc.id != "actions" ==> CellFor(c, record, rowIndex) == ColumnCell)
      && (forall h :: h in PositionHandlerNames ==>
            (CellFor(c, record, rowIndex).RenderCall? ==>
               (Dispatch(CellFor(c, record, rowIndex).handlers, h, record).Some? <==> h in supplied)))
  {
  }

  /** One row of the table body. */
  datatype BodyRow<R> = DataRow(record: R) | Placeholder(text: string, colSpan: nat)

  /** The body: one row per row of the row model, or, when the row model is
      empty, one "暂无数据" row spanning every column of the table. */
  function BodyRows<R>(rows: seq<R>, columns: seq<TableColumn>): (r: seq<BodyRow<R>>)
    ensures |rows| == 0 ==> r == [Placeholder("暂无数据", |columns|)]
    ensures |rows| > 0 ==> |r| == |rows| && forall i :: 0 <= i < |r| ==> r[i] == DataRow(rows[i])
  {
    if |rows| > 0 then seq(|rows|, i requires 0 <= i < |rows| => DataRow(rows[i]))
    else [Placeholder("暂无数据", |columns|)]
  }

  /** The body never is empty, and it holds a placeholder exactly when
      there are no rows. */
  lemma BodyIsNeverEmpty<R>(rows: seq<R>, columns: seq<TableColumn>)
    ensures |BodyRows(rows, columns)| >= 1
    ensures (exists i :: 0 <= i < |BodyRows(rows, columns)| && BodyRows(rows, columns)[i].Placeholder?) <==> |rows| == 0
  {
    var r := BodyRows(rows, columns);
    if |rows| == 0 {
      assert r[0].Placeholder?;
    }
  }

  /** One sort entry: a column id and its direction. */
  datatype SortEntry = SortEntry(columnId: string, desc: bool)

  /** One column filter: a column id and its filter value. */
  datatype ColumnFilter = ColumnFilter(columnId: string, value: string)

  /** The table's four state slots; the table library replaces each slot
      through its own setter. */
  class TableState {
    var sorting: seq<SortEntry>
    var columnFilters: seq<ColumnFilter>
    var columnVisibility: map<string, bool>
    var rowSelection: map<string, bool>

    /** Every slot starts empty. */
    constructor ()
      ensures sorting == [] && columnFilters == []
      ensures columnVisibility == map[] && rowSelection == map[]
    {
      sorting, columnFilters := [], [];
      columnVisibility, rowSelection := map[], map[];
    }

    method SetSorting(s: seq<SortEntry>)
      modifies this`sorting
      ensures sorting == s
    {
      sorting := s;
    }

    method SetColumnFilters(f: seq<ColumnFilter>)
      modifies this`columnFilters
      ensures columnFilters == f
    {
      columnFilters := f;
    }

    method SetColumnVisibility(v: map<string, bool>)
      modifies this`columnVisibility
      ensures columnVisibility == v
    {
      columnVisibility := v;
    }

    method SetRowSelection(s: map<string, bool>)
      modifies this`rowSelection
      ensures rowSelection == s
    {
      rowSelection := s;
    }
  }
}
