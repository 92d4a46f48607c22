/** The size arithmetic of the connect screen: a left box one third of the
    width and a table in the rest, both with two-cell borders. The source's
    integer division truncates toward zero, so it is written out here. */
module Layout {
  import opened Styling

  const BORDER_WIDTH := 2
  const BORDER_HEIGHT := 2

  /** Integer division truncating toward zero (Dafny's `/` is Euclidean). */
  function TruncDiv(a: int, b: int): (q: int)
    requires b > 0
    ensures a >= 0 ==> 0 <= a - b * q < b
    ensures a < 0 ==> -b < a - b * q <= 0
  {
    if a >= 0 then a / b else -((-a) / b)
  }

  /** Widths of the left box and of the table. The two together fill the
      width less the two borders, and the table gets twice the left box's
      width less at most two columns. */
  function ColumnSplit(width: int): (r: (int, int))
    ensures r.0 == TruncDiv(width - BORDER_WIDTH, 3)
    ensures r.0 + r.1 == width - 2 * BORDER_WIDTH
    ensures width >= BORDER_WIDTH ==> 0 <= 3 * r.0 <= width - BORDER_WIDTH < 3 * r.0 + 3
    ensures width >= BORDER_WIDTH ==> 2 * r.0 - 2 <= r.1 <= 2 * r.0
  {
    var oneThird := TruncDiv(width - BORDER_WIDTH, 3);
    var twoThirds := width - oneThird - 2 * BORDER_WIDTH;
    (oneThird, twoThirds)
  }

  /** Top and bottom padding of the left box's text. Together they fill the
      height less the borders, the text line and the two ten-line offsets. */
  function VerticalPadding(height: int): (r: (int, int))
    ensures r.0 == TruncDiv(height - BORDER_HEIGHT - 2, 2) - 10
    ensures r.0 + r.1 == height - BORDER_HEIGHT - 1 - 10
    ensures height >= BORDER_HEIGHT + 2 ==> 2 * (r.0 + 10) <= height - BORDER_HEIGHT - 2 < 2 * (r.0 + 10) + 2
  {
    var paddingTop := TruncDiv(height - BORDER_HEIGHT - 2, 2) - 10;
    var paddingBottom := height - BORDER_HEIGHT - paddingTop - 1 - 10;
    (paddingTop, paddingBottom)
  }

  /** What the connect screen hands to the renderer: the left box's size,
      padding and border colour, and the table's size and border colour. */
  datatype ConnectLayout = ConnectLayout(
    leftWidth: int, leftHeight: int, paddingTop: int, paddingBottom: int, leftBorder: Color,
    tableWidth: int, tableHeight: int, tableBorder: Color)

  function ConnectScreen(width: int, height: int, selectedTabIdx: int, activeTab: string): (l: ConnectLayout)
    ensures (l.leftWidth, l.tableWidth) == ColumnSplit(width)
    ensures (l.paddingTop, l.paddingBottom) == VerticalPadding(height)
    ensures l.leftHeight == height - BORDER_HEIGHT - 100
    ensures l.leftWidth + l.tableWidth == width - 2 * BORDER_WIDTH
    ensures l.tableHeight == height
    ensures l.leftBorder == SELECTED_COLOR <==> selectedTabIdx == 0
    ensures l.tableBorder == SELECTED_COLOR <==> selectedTabIdx == 1 || activeTab == "table"
  {
    var (oneThird, twoThirds) := ColumnSplit(width);
    var (paddingTop, paddingBottom) := VerticalPadding(height);
    ConnectLayout(
      oneThird, height - BORDER_HEIGHT - 100, paddingTop, paddingBottom, LeftBorderColor(selectedTabIdx),
      twoThirds, height, TableBorderColor(selectedTabIdx, activeTab))
  }

  /** Example: an 80-column, 40-line terminal gets a 26-column left box and a
      50-column table. */
  lemma EightyColumns()
    ensures ColumnSplit(80) == (26, 50)
    ensures ConnectScreen(80, 40, 0, "").leftBorder == SELECTED_COLOR
  {
  }

  /** Before the first resize the size is 0 by 0: the left box is 0 wide, the
      table -4, and the paddings -12 and -1, as truncating division gives. */
  lemma ZeroSizeLayout()
    ensures ColumnSplit(0) == (0, -4)
    ensures VerticalPadding(0) == (-12, -1)
  {
  }
}
