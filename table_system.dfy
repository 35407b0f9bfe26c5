/** The column set and cell formatting of the plain table: the given columns
    plus one actions column, and a cell value chosen by precedence (the
    column's own renderer, then the table's custom renderer, then a default). */
module BaseTableSystem {
  import opened Values

  /** What a cell renders, as far as the table's logic tells it apart:
      nothing, a text, a locale-formatted date, a component, a styled span,
      or a progress bar of the given CSS width. */
  datatype Node =
    | NullNode
    | Text(s: string)
    | LocaleDate(time: int)
    | Element(component: string, text: string)
    | Span(className: string, text: string)
    | ProgressBar(width: string)

  /** React renders a falsy node as nothing: the table treats `null` and `''` as falsy. */
  predicate NodeTruthy(n: Node) {
    !n.NullNode? && n != Text("")
  }

  /** A column: the item key it shows, its header, and an optional cell renderer. */
  datatype Column = Column(accessorKey: string, header: string, cell: Option<Record -> Node>)

  /** The appended column's cell: the row's action popover. */
  function ActionsCell(item: Record): Node {
    Element("BaseTableActionPopover", "")
  }

  const ActionsColumn: Column := Column("actions", "", Some(ActionsCell))

  /** `finalColumns` */
  function FinalColumns(columns: seq<Column>): (r: seq<Column>)
    ensures |r| == |columns| + 1
    ensures r[..|columns|] == columns
    ensures r[|columns|].accessorKey == "actions" && r[|columns|].header == ""
    ensures r[|columns|].cell.Some?
  {
    columns + [ActionsColumn]
  }

  /** `formatCellValue` of this table (no status relabelling). `custom` is
      the table's optional `renderCustomCell`. */
  function FormatCellValue(item: Record, key: string, custom: Option<(Record, string) -> Node>): (r: Node)
    ensures key == "actions" ==> r == Text("")
    ensures key != "actions" && custom.Some? && NodeTruthy(custom.value(item, key)) ==> r == custom.value(item, key)
    ensures key != "actions" && (custom.None? || !NodeTruthy(custom.value(item, key))) ==>
      r == (if Get(item, key).Date? then LocaleDate(Get(item, key).time) else Text(ToJsString(Get(item, key))))
  {
    if key == "actions" then Text("")
    else if custom.Some? && NodeTruthy(custom.value(item, key)) then custom.value(item, key)
    else
      var value := Get(item, key);
      if value.Date? then LocaleDate(value.time) else Text(ToJsString(value))
  }

  /** The content of one body cell: the column's own renderer wins. */
  function CellContent(column: Column, item: Record, custom: Option<(Record, string) -> Node>): Node {
    if column.cell.Some? then column.cell.value(item) else FormatCellValue(item, column.accessorKey, custom)
  }

  /** One body row: a cell per final column. */
  function Row(columns: seq<Column>, item: Record, custom: Option<(Record, string) -> Node>): (r: seq<Node>)
    ensures |r| == |columns| + 1
  {
    var all := FinalColumns(columns);
    seq(|all|, i requires 0 <= i < |all| => CellContent(all[i], item, custom))
  }

  /** Every row ends with the action popover, whatever the columns and the
      custom renderer; a column without its own renderer and not named
      'actions' shows the custom renderer's output when that is truthy. */
  lemma RowShape(columns: seq<Column>, item: Record, custom: Option<(Record, string) -> Node>, i: nat)
    requires i < |columns|
    ensures Row(columns, item, custom)[|columns|] == Element("BaseTableActionPopover", "")
    ensures columns[i].cell.Some? ==> Row(columns, item, custom)[i] == columns[i].cell.value(item)
    ensures columns[i].cell.None? && columns[i].accessorKey != "actions" && custom.Some?
            && NodeTruthy(custom.value(item, columns[i].accessorKey))
            ==> Row(columns, item, custom)[i] == custom.value(item, columns[i].accessorKey)
  {
    var all := FinalColumns(columns);
    assert all[|columns|] == ActionsColumn;
    assert all[i] == columns[i];
  }
}
