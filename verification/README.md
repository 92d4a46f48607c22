# shelly: the key routing and styling of the terminal app, in Dafny

shelly is a terminal application built on an event loop. It has two parts. One
is a connect screen: a left box and a table of Pokémon rows, where focus can
move between the two panes and a row can be chosen. The other is a question
wizard whose answers are typed into single-line or multi-line fields. This
project models the logic of `app.go` that decides things, and leaves out what
only draws. That logic covers:

- the application state and its `Update` routing of resize and key messages
  (`App.Step` on a value, and the class `App.Model` whose `Update` and
  `Next` methods change the same fields in place and whose `View` reads them);
- the per-cell style rule of the table, the row-selection rule and the
  border colours that show which pane has focus (`Styling`);
- the width and padding arithmetic of the connect screen (`Layout`);
- the in-place upper-casing of the column headers (`Headers`);
- the finished summary that `View` builds in a loop (`App.Summary`).

What the code does:

- `Update` indexes the current question before it looks at the message.
  Then:
  - `ctrl+c` returns the quit command with the state unchanged.
  - A resize records the width and height.
  - `tab` moves the focus to the next pane and wraps around. The focus
    starts at -1, so the first tab focuses pane 0.
  - `enter` copies the row at `selectedRowIdx` into `selectedRowData`,
    marks the table active, and then calls `updateTable`. That call installs
    a style rule through the state's table reference, which is never set on
    the state `Update` receives, so on the running program this step most
    likely ends in a nil dereference. The model gives the state `Update`
    would return if that call had no effect (see "Left out").
- Every message except `ctrl+c` then goes to the current question's field.
- The `esc`, `up` and `down` arms sit inside the `enter` case and test the
  same key again, so they never run.
- `Update` never changes `index` or `done` and never stores an answer, and
  nothing changes `currentView`. So the program shows the connect screen for
  as long as it runs (`App.ConnectScreenForever`).
- The code has no reachable step that commits an answer or advances the
  wizard, moves a table cursor, or resets the selection on escape, so the
  model has none either.

Input fields (`input.go`) wrap library widgets whose editing behaviour cannot
be seen here. An `Input` is modelled as an abstract value that records, in
order, the messages it was fed. That is exactly what the routing decides.

## Model

| member | source | states |
|---|---|---|
| App.NewQuestion | app.go:27-29 | a new question keeps its prompt, has an empty answer and no field |
| App.NewShortQuestion | app.go:31-36 | a short question has its prompt, an empty answer and a fresh single-line field that has consumed nothing |
| App.NewLongQuestion | app.go:38-43 | a long question has its prompt, an empty answer and a fresh multi-line field that has consumed nothing |
| App.BuiltQuestionsAreReady | app.go:352-358 | a non-empty list of questions built with a short or long field, with a non-empty table, gives a start state that can handle every message |
| Fields.NewShortAnswerField | input.go:20-25 | a new single-line field has consumed no message |
| Fields.NewLongAnswerField | input.go:50-55 | a new multi-line field has consumed no message |
| App.NextTabInRange | app.go:344-350 | from -1 or any pane in [0, totalTabs), tab yields a pane in range: the next one, or 0 from the last |
| App.Step | app.go:133-170 | one Update keeps every state that can handle all messages ready to handle them, with the focus in [-1, totalTabs) |
| App.StepFrame | app.go:133-170 | no message changes the view, pane count, row index, data, question cursor, finished flag, or any prompt or answer; only the current field is fed, and only when the message is not ctrl+c; the command is Quit for ctrl+c and the field's otherwise |
| App.QuitChangesNothing | app.go:144-145 | ctrl+c returns Quit with the state unchanged and is not forwarded to the field |
| App.ResizeSetsSize | app.go:137-139 | a resize sets width and height to the message's values and changes no other field except the fed input |
| App.TabMovesFocus | app.go:142-143 | tab sets the focus to the next pane and changes no other field except the fed input |
| App.EnterSelectsRow | app.go:146-165 | enter sets selectedRowData to data[selectedRowIdx] and activeTab to "table", and leaves the row index, focus, cursor and finished flag alone (the nested esc/up/down arms never run) |
| App.OtherMessagesOnlyFeedField | app.go:140-168 | every other key (esc, up and down included) and every other message only reaches the current field |
| App.Run | app.go:133-170 | a run of messages that stops at the first quit keeps the state ready |
| App.RunStopsAtQuit | app.go:144-145 | nothing after a ctrl+c is handled |
| App.RunKeepsWizard | app.go:133-170 | no run of messages moves the question cursor, sets done, changes the view or the data, or stores an answer |
| App.TabsCycle | app.go:344-350 | with a pane focused, k tabs move the focus k panes on, modulo the pane count |
| App.TabsFromStart | app.go:118-125 | from the initial state the first tab focuses pane 0, and k + 1 tabs leave pane k mod 2 focused |
| App.ConnectScreenForever | app.go:172-175 | from the initial state, whatever messages arrive, the view stays "connect" and the wizard never finishes |
| App.SummaryConcat | app.go:179-182 | the summary is built line by line in question order: the summary of a + b is the summary of a followed by that of b |
| App.SummaryLineCount | app.go:179-182 | when no prompt or answer holds a newline, the summary holds exactly one newline per question, empty answers included |
| App.SummaryOfTwo | app.go:181 | two answered questions give "Name?: Arthur\nQuest?: Grail\n" |
| App.Model.New | app.go:118-125 | the new model is in the connect view, with focus -1, two panes, the given questions and data, and every other field at zero; it is valid (ready for every message) exactly when that start state is |
| App.Model.Next | app.go:344-350 | only the focus changes, to NextTab of the old focus; a valid model stays valid with a pane focused |
| App.Model.Update | app.go:133-170 | the new state and the returned command are those of Step on the old state; a valid model stays valid |
| App.Model.View | app.go:172-192 | the connect view gives the connect layout; otherwise done gives the summary of all questions, width 0 gives the loading placeholder, and anything else gives the current prompt and field |
| Styling.CellStyle | app.go:304-326 | row 0 gets the bold header style in every column; in columns 2 and 3 a data row takes the dim colour of its type on even rows and the bright one on odd rows, with the empty colour for unknown types; every other cell is grey 245 on even rows and 252 on odd rows; only the header is bold |
| Styling.ZebraStripes | app.go:322-325 | outside the type columns, neighbouring data rows alternate between the two greys |
| Styling.TypeTablesAgree | app.go:264-285 | the bright and dim tables cover the same types; a type gets the empty colour exactly when it is unknown |
| Styling.GrassRowsAlternate | app.go:309-319 | Bulbasaur's Grass on row 1 is #75FBAB and Ivysaur's on row 2 is #59B980 |
| Styling.SelectionStyle | app.go:335-340 | a cell gets the selected style exactly when its table row number equals selectedRowIdx, and plain grey otherwise |
| Styling.SelectionMarksHeader | app.go:335-340 | with selectedRowIdx 0, the rule as written marks the header row, not the row that shows data[0] |
| Styling.SelectedCellStyleMarksSelectedData | app.go:335-340 | the corrected rule marks exactly the row that shows data[selectedRowIdx], keeps the header style on row 0, and leaves every other cell as the per-cell rule has it |
| Styling.LeftBorderColor | app.go:205-208 | the left box border is the selected colour iff selectedTabIdx == 0 |
| Styling.TableBorderColor | app.go:254-261 | the table border is the selected colour iff selectedTabIdx == 1 or activeTab == "table" |
| Styling.AtMostOnePaneHighlighted | app.go:205-261 | while activeTab is not "table", at most one pane is highlighted; once it is, the table stays highlighted |
| Layout.TruncDiv | app.go:198 | integer division that truncates toward zero, as the source's `/` does |
| Layout.ColumnSplit | app.go:198-199 | for every width, oneThird is (width - 2) / 3 truncated toward zero and oneThird + twoThirds == width - 4; for width >= 2 the table gets twice the left width, less at most two columns |
| Layout.VerticalPadding | app.go:202-203 | for every height, the top padding is (height - 4) / 2 truncated toward zero, less 10, and top and bottom together make height - 13 |
| Layout.ConnectScreen | app.go:194-245 | the widths are ColumnSplit(width), the paddings VerticalPadding(height), the left box is height - 102 tall and the table the full height; each border is highlighted under its own rule |
| Layout.EightyColumns | app.go:198-199 | an 80-column screen is split 26 / 50 |
| Layout.ZeroSizeLayout | app.go:198-203 | before the first resize (0 by 0) the split is (0, -4) and the paddings are (-12, -1) |
| Headers.UpperChar | app.go:291 | lower-case ASCII letters map to upper case and every other character is kept; the result is never lower case |
| Headers.Upper | app.go:291 | keeps the length and upper-cases each character in place |
| Headers.UpperIdempotent | app.go:289-294 | upper-casing twice equals upper-casing once |
| Headers.UpperAll | app.go:289-294 | keeps the number of headers and upper-cases each one in its own position |
| Headers.UpperAllIdempotent | app.go:289-294 | capitalising the headers twice equals capitalising them once |
| Headers.CapitalizeHeaders | app.go:289-294 | overwrites every element of the array with its upper-case form and returns the same array |

## Left out

- Rendering: box placement, joins, borders, padding application, the table
  builder and `Render`. These are layout calls into a library. Only the style
  and size decisions passed to them are modelled.
- The input widgets' editing, `Value`, `Blur` and `View` (input.go). Their
  behaviour lives in the widget library. A field's `Update` is modelled only
  as consuming the message.
- Installing the selection rule on the table object (app.go:335). That call
  goes through `m.table`, which is assigned only on a copy of the state
  inside `renderConnectScreen`. The rule itself is modelled.
- App.EnterSelectsRow: gives the state `Update` would return if the
  `updateTable` call (app.go:156, 335) had no effect. On the state the
  program keeps, that call goes through a nil table reference, so the
  program most likely stops there with a nil dereference instead of
  returning. Whether it does depends on the table library, which is not
  part of this model.
- `main`, logging, program start-up, `Init` and the command plumbing. The
  quit command and "the field's command" are abstract `Cmd` values.
- The hard-coded Pokémon rows. The table data is a parameter.
- The unused database-connection fields, the `styles` field, and the
  `selectedRowIdx` local in `genTable`, which only feeds a log line.
- Wizard commit/advance, table cursor clamping and escape reset. The code has
  none of them reachable.
- Go's 64-bit `int` overflow in the width, padding and focus arithmetic.
  Integers here are unbounded.
- App.Run: the run assumes a state that can handle every message, including
  a row index inside the data, so that `enter` cannot index out of range.
  The source has no such guard. A run with empty data would crash on `enter`.
- Headers.UpperChar: maps only the ASCII letters a–z to upper case. The
  source's upper-casing also maps every other Unicode lower-case letter.
- Headers.Upper: maps only the ASCII letters a–z. The source's upper-casing
  follows full Unicode case mapping. The actual headers are ASCII.

## Findings

| source | as written | input that shows it | evidently intended | confidence | as-written member | corrected member |
|---|---|---|---|---|---|---|
| app.go:335-340 | the selection rule compares the table's row number with `selectedRowIdx`. It also replaces the whole per-cell rule. `genTable` numbers the header as row 0 and shows `data[row - 1]` on row `row` | `selectedRowIdx = 0`, the row that `enter` copies. If the rule were installed on the drawn table, it would mark the header row, which would also lose its header style, and would leave row 1, which shows the chosen `data[0]`, plain. As the code stands the rule never reaches a drawn table: `genTable` rebuilds the table with the per-cell rule on every frame, so this is a latent defect in the rule's text | mark the row that shows `data[selectedRowIdx]` (row `selectedRowIdx + 1`) on top of the per-cell rule | medium; follows from the row numbering `genTable` relies on; latent, since the rule is never installed on a drawn table; not executed | Styling.SelectionMarksHeader | Styling.SelectedCellStyleMarksSelectedData |
