/** The style decisions of the connect screen: the per-cell rule of the
    Pokémon table, the rule that marks the selected row, and the border
    colours that show which pane has focus. Colours are opaque strings; a
    style is reduced to the attributes the rules set. */
module Styling {

  type Color = string

  const SELECTED_COLOR: Color := "#01BE85"
  const SELECTED_BACKGROUND: Color := "#00432F"
  const DEFAULT_BORDER_COLOR: Color := "#F2CC8F"
  const EVEN_ROW_GREY: Color := "245"
  const ODD_ROW_GREY: Color := "252"

  /** A text style: foreground, background ("" when unset), bold, and whether
      it carries the table's one-column horizontal padding. */
  datatype Style = Style(fg: Color, bg: Color, bold: bool, padded: bool)

  const HEADER_STYLE := Style("252", "", true, true)
  const SELECTED_ROW_STYLE := Style(SELECTED_COLOR, SELECTED_BACKGROUND, false, false)
  const UNSELECTED_ROW_STYLE := Style("252", "", false, false)

  /** Colour of each Pokémon type, used on odd rows. */
  const TYPE_COLORS: map<string, Color> := map[
    "Bug" := "#D7FF87",
    "Electric" := "#FDFF90",
    "Fire" := "#FF7698",
    "Flying" := "#FF87D7",
    "Grass" := "#75FBAB",
    "Ground" := "#FF875F",
    "Normal" := "#929292",
    "Poison" := "#7D5AFC",
    "Water" := "#00E2C7"
  ]

  /** The dimmed variant of each type colour, used on even rows. */
  const DIM_TYPE_COLORS: map<string, Color> := map[
    "Bug" := "#97AD64",
    "Electric" := "#FCFF5F",
    "Fire" := "#BA5F75",
    "Flying" := "#C97AB2",
    "Grass" := "#59B980",
    "Ground" := "#C77252",
    "Normal" := "#727272",
    "Poison" := "#634BD0",
    "Water" := "#439F8E"
  ]

  /** A map read as the source language reads it: a missing key yields the
      zero value, the empty colour. */
  function Lookup(m: map<string, Color>, key: string): Color {
    if key in m then m[key] else ""
  }

  /** The colour of a type cell: dimmed on even rows, bright on odd ones. */
  function TypeColor(typeName: string, even: bool): Color {
    Lookup(if even then DIM_TYPE_COLORS else TYPE_COLORS, typeName)
  }

  predicate IsTypeColumn(col: int) {
    col == 2 || col == 3
  }

  /** The rule reads the data only for the two type columns of a data row;
      there the row must exist and be wide enough. Table row r > 0 shows
      data[r - 1]: row 0 is the header. */
  predicate CellReadable(row: int, col: int, data: seq<seq<string>>) {
    row != 0 && IsTypeColumn(col) ==> 1 <= row <= |data| && col < |data[row - 1]|
  }

  /** The table's per-cell style rule. Row parity is tested with `row % 2 == 0`,
      which holds for the same rows whether `%` truncates or not. */
  function CellStyle(row: int, col: int, data: seq<seq<string>>): (s: Style)
    requires CellReadable(row, col, data)
    ensures s.bold <==> row == 0
    ensures s.padded && s.bg == ""
    ensures row == 0 ==> s == HEADER_STYLE
    ensures row != 0 && IsTypeColumn(col) ==> s.fg == TypeColor(data[row - 1][col], row % 2 == 0)
    ensures row != 0 && !IsTypeColumn(col) ==> s.fg == (if row % 2 == 0 then EVEN_ROW_GREY else ODD_ROW_GREY)
  {
    if row == 0 then HEADER_STYLE
    else
      var even := row % 2 == 0;
      if IsTypeColumn(col) then
        var c := if even then DIM_TYPE_COLORS else TYPE_COLORS;
        Style(Lookup(c, data[row - 1][col]), "", false, true)
      else if even then Style(EVEN_ROW_GREY, "", false, true)
      else Style(ODD_ROW_GREY, "", false, true)
  }

  /** Zebra striping: outside the type columns, neighbouring data rows never
      share a foreground colour. */
  lemma ZebraStripes(row: int, col: int, data: seq<seq<string>>)
    requires row >= 1 && !IsTypeColumn(col)
    ensures CellStyle(row, col, data).fg != CellStyle(row + 1, col, data).fg
    ensures {CellStyle(row, col, data).fg, CellStyle(row + 1, col, data).fg} == {EVEN_ROW_GREY, ODD_ROW_GREY}
  {
  }

  /** The two colour tables cover the same types, and every known type has a
      non-empty colour in both; an unknown type (such as the empty second
      type of a single-type Pokémon) is coloured with the empty colour. */
  lemma TypeTablesAgree(typeName: string)
    ensures typeName in TYPE_COLORS <==> typeName in DIM_TYPE_COLORS
    ensures TypeColor(typeName, true) == "" <==> typeName !in TYPE_COLORS
    ensures TypeColor(typeName, false) == "" <==> typeName !in TYPE_COLORS
  {
  }

  /** The first two rows of the table: Bulbasaur's Grass on an odd row is the
      bright green, Ivysaur's on the even row below it the dimmed one. */
  lemma GrassRowsAlternate()
    ensures var data := [["1", "Bulbasaur", "Grass", "Poison"], ["2", "Ivysaur", "Grass", "Poison"]];
      CellStyle(1, 2, data).fg == "#75FBAB" && CellStyle(2, 2, data).fg == "#59B980" &&
      CellStyle(2, 3, data).fg == "#634BD0" && CellStyle(0, 2, data) == HEADER_STYLE
  {
  }

  /** The row-highlighting rule as written: the table row whose number equals
      the selected data index gets the selected style, every other cell the
      plain grey style. It replaces the whole per-cell rule. */
  function SelectionStyle(row: int, col: int, selectedRowIdx: int): (s: Style)
    ensures s == SELECTED_ROW_STYLE <==> row == selectedRowIdx
    ensures s == SELECTED_ROW_STYLE || s == UNSELECTED_ROW_STYLE
  {
    if row == selectedRowIdx then SELECTED_ROW_STYLE else UNSELECTED_ROW_STYLE
  }

  /** With the first data row selected (index 0), the rule as written paints
      the header row (table row 0) and not the row that shows data[0]
      (table row 1), and the header loses its bold header style. */
  lemma SelectionMarksHeader(col: int)
    ensures SelectionStyle(0, col, 0) == SELECTED_ROW_STYLE
    ensures SelectionStyle(1, col, 0) != SELECTED_ROW_STYLE
    ensures SelectionStyle(0, col, 0) != HEADER_STYLE
  {
  }

  /** The selection rule with the header offset applied and layered over the
      per-cell rule: the row showing data[selectedRowIdx] wins over every
      other rule, every other cell keeps its per-cell style. */
  function SelectedCellStyle(row: int, col: int, data: seq<seq<string>>, selectedRowIdx: int): (s: Style)
    requires CellReadable(row, col, data)
  {
    if row >= 1 && row - 1 == selectedRowIdx then SELECTED_ROW_STYLE else CellStyle(row, col, data)
  }

  /** The corrected rule marks exactly the row showing the selected data, in
      every column, above the type colours and the zebra stripes; the header
      keeps its style. */
  lemma SelectedCellStyleMarksSelectedData(row: int, col: int, data: seq<seq<string>>, selectedRowIdx: int)
    requires CellReadable(row, col, data) && 0 <= selectedRowIdx
    ensures SelectedCellStyle(row, col, data, selectedRowIdx) == SELECTED_ROW_STYLE
            <==> row >= 1 && row - 1 == selectedRowIdx
    ensures row == 0 ==> SelectedCellStyle(row, col, data, selectedRowIdx) == HEADER_STYLE
    ensures row - 1 != selectedRowIdx ==> SelectedCellStyle(row, col, data, selectedRowIdx) == CellStyle(row, col, data)
  {
  }

  /** Border of the left box: highlighted exactly when the first pane has
      focus. */
  function LeftBorderColor(selectedTabIdx: int): (c: Color)
    ensures c == SELECTED_COLOR <==> selectedTabIdx == 0
    ensures c == SELECTED_COLOR || c == DEFAULT_BORDER_COLOR
  {
    if selectedTabIdx == 0 then SELECTED_COLOR else DEFAULT_BORDER_COLOR
  }

  /** Border of the table: starts neutral, switches to the selected colour
      when the second pane has focus, and again when a row was chosen. */
  function TableBorderColor(selectedTabIdx: int, activeTab: string): (c: Color)
    ensures c == SELECTED_COLOR <==> selectedTabIdx == 1 || activeTab == "table"
    ensures c == SELECTED_COLOR || c == DEFAULT_BORDER_COLOR
  {
    var neutral := DEFAULT_BORDER_COLOR;
    var focused := if selectedTabIdx == 1 then SELECTED_COLOR else neutral;
    if activeTab == "table" then SELECTED_COLOR else focused
  }

  /** Until a row has been chosen, at most one pane is highlighted. Once one
      has, the table stays highlighted whatever pane has focus. */
  lemma AtMostOnePaneHighlighted(selectedTabIdx: int, activeTab: string)
    ensures activeTab != "table" ==>
      !(LeftBorderColor(selectedTabIdx) == SELECTED_COLOR && TableBorderColor(selectedTabIdx, activeTab) == SELECTED_COLOR)
    ensures activeTab == "table" ==> TableBorderColor(selectedTabIdx, activeTab) == SELECTED_COLOR
  {
  }
}
