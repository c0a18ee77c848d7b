/**
 * The horizontally scrolling table of the design system
 * (src/components/designSystem/Table/HorizontalDataTable.tsx): rows are
 * the columns' descriptors, data items are laid out as virtual columns.
 */
module HorizontalDataTable {
  import opened Wrappers

  /** `RowType` */
  datatype RowType = Header | Data

  /** A row descriptor (the `columns` prop): its label, when it is plain text, and its type. */
  datatype Row = Row(caption: Option<string>, rowType: RowType)

  const DefaultColumnWidth: int := 160
  const DefaultLeftColumnWidth: int := 120
  const DefaultColumnIdPrefix: string := "column-"

  /** `getRowHeight` */
  function GetRowHeight(rowType: RowType): (height: int)
    ensures height == if rowType == Header then 40 else 48
  {
    if rowType == Header then 40 else 48
  }

  /** `columns.reduce((acc, item) => acc + getRowHeight(item.type), 0)` */
  function TableHeight(rows: seq<Row>): int {
    if rows == [] then 0 else TableHeight(rows[..|rows| - 1]) + GetRowHeight(rows[|rows| - 1].rowType)
  }

  function CountOf(rows: seq<Row>, t: RowType): nat {
    if rows == [] then 0 else CountOf(rows[..|rows| - 1], t) + if rows[|rows| - 1].rowType == t then 1 else 0
  }

  /** The height is 40 per header row and 48 per data row; no rows, no height. */
  lemma {:induction false} TableHeightCounts(rows: seq<Row>)
    ensures TableHeight(rows) == 40 * CountOf(rows, Header) + 48 * CountOf(rows, Data)
    ensures CountOf(rows, Header) + CountOf(rows, Data) == |rows|
  {
    if rows != [] {
      TableHeightCounts(rows[..|rows| - 1]);
    }
  }

  /** Each row adds at least 40 and at most 48. */
  lemma TableHeightBounds(rows: seq<Row>)
    ensures 40 * |rows| <= TableHeight(rows) <= 48 * |rows|
  {
    TableHeightCounts(rows);
  }

  /** A cell of the left label column. */
  datatype LeftCell = LeftCell(height: int, caption: Option<string>, variant: string, color: string, topShadow: bool)

  function LeftCellFor(row: Row, index: nat): LeftCell {
    LeftCell(GetRowHeight(row.rowType), row.caption,
             if row.rowType == Header then "captionHl" else "bodyHl",
             if row.rowType == Header then "grey600" else "grey700",
             index == 0)
  }

  /** The left label column: present only with at least one row, one cell per row in order. */
  function LeftColumn(rows: seq<Row>): (column: Option<seq<LeftCell>>)
    ensures column.None? <==> rows == []
    ensures column.Some? ==> |column.value| == |rows|
    ensures column.Some? ==> forall i :: 0 <= i < |rows| ==>
              column.value[i].caption == rows[i].caption && column.value[i].height == GetRowHeight(rows[i].rowType)
              && (column.value[i].topShadow <==> i == 0)
  {
    if rows == [] then None else Some(seq(|rows|, i requires 0 <= i < |rows| => LeftCellFor(rows[i], i)))
  }

  /** The left column is as tall as the scrolling area. */
  lemma {:induction false} LeftColumnHeight(rows: seq<Row>)
    requires rows != []
    ensures SumHeights(LeftColumn(rows).value) == TableHeight(rows)
  {
    var cells := LeftColumn(rows).value;
    SumHeightsPrefix(cells, rows, |rows|);
    assert cells[..|rows|] == cells;
    assert rows[..|rows|] == rows;
  }

  function SumHeights(cells: seq<LeftCell>): int {
    if cells == [] then 0 else SumHeights(cells[..|cells| - 1]) + cells[|cells| - 1].height
  }

  lemma {:induction false} SumHeightsPrefix(cells: seq<LeftCell>, rows: seq<Row>, n: nat)
    requires |cells| == |rows| && n <= |rows|
    requires forall i :: 0 <= i < |rows| ==> cells[i].height == GetRowHeight(rows[i].rowType)
    ensures SumHeights(cells[..n]) == TableHeight(rows[..n])
  {
    if n > 0 {
      SumHeightsPrefix(cells, rows, n - 1);
      assert cells[..n][..n - 1] == cells[..n - 1];
      assert rows[..n][..n - 1] == rows[..n - 1];
    }
  }

  /** The settings given to the column virtualizer, and the index scrolled to on mount. */
  datatype VirtualizerConfig = VirtualizerConfig(count: nat, horizontal: bool, paddingStart: int, estimatedSize: int, initialScrollIndex: int)

  /** The table's props after defaults. */
  datatype TableProps = TableProps(dataCount: nat, columnWidth: int, leftColumnWidth: int, columnIdPrefix: string)

  function WithDefaults(dataCount: Option<nat>, columnWidth: Option<int>, leftColumnWidth: Option<int>, columnIdPrefix: Option<string>): (props: TableProps)
    ensures dataCount.None? ==> props.dataCount == 0
    ensures columnWidth.None? ==> props.columnWidth == 160
    ensures leftColumnWidth.None? ==> props.leftColumnWidth == 120
    ensures columnIdPrefix.None? ==> props.columnIdPrefix == "column-"
    ensures dataCount.Some? ==> props.dataCount == dataCount.value
    ensures columnWidth.Some? ==> props.columnWidth == columnWidth.value
    ensures leftColumnWidth.Some? ==> props.leftColumnWidth == leftColumnWidth.value
    ensures columnIdPrefix.Some? ==> props.columnIdPrefix == columnIdPrefix.value
  {
    TableProps(dataCount.GetOr(0), columnWidth.GetOr(DefaultColumnWidth),
               leftColumnWidth.GetOr(DefaultLeftColumnWidth), columnIdPrefix.GetOr(DefaultColumnIdPrefix))
  }

  /** One virtual column per data item, after a padding as wide as the left column; mount scrolls to the last item. */
  function Virtualizer(props: TableProps): (config: VirtualizerConfig)
    ensures config.count == props.dataCount && config.horizontal
    ensures config.paddingStart == props.leftColumnWidth && config.estimatedSize == props.columnWidth
    ensures config.initialScrollIndex == config.count - 1
  {
    VirtualizerConfig(props.dataCount, true, props.leftColumnWidth, props.columnWidth, props.dataCount - 1)
  }

  /** With no data the mount-time scroll asks for index -1. */
  lemma EmptyDataScrollsToMinusOne(columnWidth: Option<int>, leftColumnWidth: Option<int>)
    ensures Virtualizer(WithDefaults(None, columnWidth, leftColumnWidth, None)).initialScrollIndex == -1
  {
  }
}
