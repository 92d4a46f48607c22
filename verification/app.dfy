/** The application model: the state the event loop threads through
    Update, the key routing that Update performs, and what View shows.

    The state is given twice: as the value `Snapshot`, on which the routing is
    specified (`Step`, `Run`) and its properties are proved, and as the class
    `Model`, whose methods update the same fields step by step and are proved
    to agree with `Step`. */
module App {
  import opened Events
  import opened Fields
  import Layout

  /** A prompt, its stored answer and the field that captures it. */
  datatype Question = Question(question: string, answer: string, input: Input)

  /** A question with no answer and no field yet. */
  function NewQuestion(question: string): (q: Question)
    ensures q.question == question && q.answer == "" && q.input == NilInput
  {
    Question(question, "", NilInput)
  }

  /** A question answered in a fresh single-line field. */
  function NewShortQuestion(question: string): (q: Question)
    ensures q.question == question && q.answer == ""
    ensures q.input.Field? && q.input.kind == ShortAnswer && q.input.fed == []
  {
    NewQuestion(question).(input := NewShortAnswerField())
  }

  /** A question answered in a fresh multi-line field. */
  function NewLongQuestion(question: string): (q: Question)
    ensures q.question == question && q.answer == ""
    ensures q.input.Field? && q.input.kind == LongAnswer && q.input.fed == []
  {
    NewQuestion(question).(input := NewLongAnswerField())
  }

  /** Questions built the way the program builds them, with a short or a
      long field each, and a non-empty table make a start state that can
      handle every message. */
  lemma BuiltQuestionsAreReady(prompts: seq<string>, long: seq<bool>, data: seq<seq<string>>)
    requires |prompts| == |long| > 0 && |data| > 0
    ensures var questions := seq(|prompts|, i requires 0 <= i < |prompts| =>
        if long[i] then NewLongQuestion(prompts[i]) else NewShortQuestion(prompts[i]));
      Ready(Initial(questions, data))
  {
  }

  /** Every field of the application state that its logic reads or writes.
      `data` holds the table's rows; `selectedTabIdx` is the focused pane, -1
      before the first tab key; `index` is the current question. */
  datatype Snapshot = Snapshot(
    currentView: string,
    selectedTabIdx: int,
    totalTabs: int,
    activeTab: string,
    selectedRowIdx: int,
    selectedRowData: seq<string>,
    data: seq<seq<string>>,
    questions: seq<Question>,
    width: int,
    height: int,
    index: int,
    done: bool)

  /** The state the program starts from: connect view, no pane focused, two
      panes, everything else at its zero value. */
  function Initial(questions: seq<Question>, data: seq<seq<string>>): Snapshot {
    Snapshot("connect", -1, 2, "", 0, [], data, questions, 0, 0, 0, false)
  }

  /** The focus after one tab key: the next pane, wrapping to the first. */
  function NextTab(selectedTabIdx: int, totalTabs: int): int {
    if selectedTabIdx < totalTabs - 1 then selectedTabIdx + 1 else 0
  }

  /** From no focus (-1) or any pane, the tab key moves to the following pane
      and from the last pane back to the first. */
  lemma NextTabInRange(selectedTabIdx: int, totalTabs: int)
    requires 1 <= totalTabs && -1 <= selectedTabIdx < totalTabs
    ensures 0 <= NextTab(selectedTabIdx, totalTabs) < totalTabs
    ensures selectedTabIdx < totalTabs - 1 ==> NextTab(selectedTabIdx, totalTabs) == selectedTabIdx + 1
    ensures selectedTabIdx == totalTabs - 1 ==> NextTab(selectedTabIdx, totalTabs) == 0
  {
  }

  /** What Update needs of the state to handle `msg`: the current question
      exists and has a field (it is indexed before the message is looked
      at), and for enter the selected row exists. */
  predicate CanUpdate(s: Snapshot, msg: Msg) {
    0 <= s.index < |s.questions| && s.questions[s.index].input.Field? &&
    (msg == Key("enter") ==> 0 <= s.selectedRowIdx < |s.data|)
  }

  /** A state that can handle every message, with the focus in range. */
  predicate Ready(s: Snapshot) {
    0 <= s.index < |s.questions| && s.questions[s.index].input.Field? &&
    0 <= s.selectedRowIdx < |s.data| &&
    1 <= s.totalTabs && -1 <= s.selectedTabIdx < s.totalTabs
  }

  /** The state with `msg` handed to the current question's field. */
  function FeedCurrent(s: Snapshot, msg: Msg): Snapshot
    requires 0 <= s.index < |s.questions| && s.questions[s.index].input.Field?
  {
    var q := s.questions[s.index];
    s.(questions := s.questions[s.index := q.(input := Feed(q.input, msg))])
  }

  datatype Outcome = Outcome(model: Snapshot, cmd: Cmd)

  /** One Update: ctrl+c quits at once; a resize records the size; tab moves
      the focus; enter copies the selected row and marks the table active.
      The key switch nests a second switch on the same key inside the enter
      case, so of its arms only enter's can run. Every message that does not
      quit is then handed to the current question's field, whose command is
      returned. */
  function Step(s: Snapshot, msg: Msg): (o: Outcome)
    requires CanUpdate(s, msg)
    ensures Ready(s) ==> Ready(o.model)
  {
    if msg == Key("ctrl+c") then Outcome(s, Quit)
    else
      var routed :=
        match msg
        case WindowSize(w, h) => s.(width := w, height := h)
        case Key(k) =>
          if k == "tab" then s.(selectedTabIdx := NextTab(s.selectedTabIdx, s.totalTabs))
          else if k == "enter" then s.(selectedRowData := s.data[s.selectedRowIdx], activeTab := "table")
          else s
        case Other => s;
      Outcome(FeedCurrent(routed, msg), FieldCmd)
  }

  /** What no message changes: the view, the pane count, the row index, the
      data, the question cursor, the finished flag, and every question's
      prompt and answer (Update stores no answers). Only the current
      question's field receives the message, and only when it is not ctrl+c. */
  lemma StepFrame(s: Snapshot, msg: Msg)
    requires CanUpdate(s, msg)
    ensures var t := Step(s, msg).model;
      t.currentView == s.currentView && t.totalTabs == s.totalTabs &&
      t.selectedRowIdx == s.selectedRowIdx && t.data == s.data &&
      t.index == s.index && t.done == s.done && |t.questions| == |s.questions|
    ensures var t := Step(s, msg).model;
      forall i :: 0 <= i < |s.questions| ==>
        t.questions[i].question == s.questions[i].question &&
        t.questions[i].answer == s.questions[i].answer &&
        (i != s.index ==> t.questions[i].input == s.questions[i].input)
    ensures Step(s, msg).model.questions[s.index].input ==
      if msg == Key("ctrl+c") then s.questions[s.index].input else Feed(s.questions[s.index].input, msg)
    ensures Step(s, msg).cmd == if msg == Key("ctrl+c") then Quit else FieldCmd
  {
  }

  /** ctrl+c returns the quit command and leaves the state untouched; the
      field does not see the key. */
  lemma QuitChangesNothing(s: Snapshot)
    requires CanUpdate(s, Key("ctrl+c"))
    ensures Step(s, Key("ctrl+c")) == Outcome(s, Quit)
  {
  }

  /** A resize sets width and height and, apart from the field it is handed
      to, nothing else. */
  lemma ResizeSetsSize(s: Snapshot, w: int, h: int)
    requires CanUpdate(s, WindowSize(w, h))
    ensures var t := Step(s, WindowSize(w, h)).model;
      t.width == w && t.height == h &&
      t.(questions := s.questions) == s.(width := w, height := h)
  {
  }

  /** tab advances the focus and changes nothing else but the field. */
  lemma TabMovesFocus(s: Snapshot)
    requires CanUpdate(s, Key("tab"))
    ensures var t := Step(s, Key("tab")).model;
      t.selectedTabIdx == NextTab(s.selectedTabIdx, s.totalTabs) &&
      t.(questions := s.questions) == s.(selectedTabIdx := t.selectedTabIdx)
  {
  }

  /** enter copies the row at the row index and marks the table active; the
      row index, the focus, the question cursor and the finished flag stay. */
  lemma EnterSelectsRow(s: Snapshot)
    requires CanUpdate(s, Key("enter"))
    ensures var t := Step(s, Key("enter")).model;
      t.selectedRowData == s.data[s.selectedRowIdx] && t.activeTab == "table" &&
      t.selectedRowIdx == s.selectedRowIdx && t.selectedTabIdx == s.selectedTabIdx &&
      t.index == s.index && t.done == s.done &&
      t.(questions := s.questions) == s.(selectedRowData := t.selectedRowData, activeTab := "table")
  {
  }

  /** Every other key, esc, up and down included, and every other message
      only reaches the field: the row index and the active tab stay. */
  lemma OtherMessagesOnlyFeedField(s: Snapshot, msg: Msg)
    requires CanUpdate(s, msg)
    requires msg.Other? || (msg.Key? && msg.name !in {"tab", "ctrl+c", "enter"})
    ensures Step(s, msg) == Outcome(FeedCurrent(s, msg), FieldCmd)
  {
  }

  /** The state after a run of messages, stopping at the first that quits. */
  function Run(s: Snapshot, msgs: seq<Msg>): (r: Snapshot)
    requires Ready(s)
    ensures Ready(r)
    decreases |msgs|
  {
    if msgs == [] then s
    else
      var o := Step(s, msgs[0]);
      if o.cmd == Quit then o.model else Run(o.model, msgs[1..])
  }

  /** Nothing after a ctrl+c is handled. */
  lemma RunStopsAtQuit(s: Snapshot, rest: seq<Msg>)
    requires Ready(s)
    ensures Run(s, [Key("ctrl+c")] + rest) == s
  {
  }

  /** No run of messages moves the question cursor, sets the finished flag,
      changes the view or the data, or stores an answer. */
  lemma {:induction false} RunKeepsWizard(s: Snapshot, msgs: seq<Msg>)
    requires Ready(s)
    ensures var r := Run(s, msgs);
      r.index == s.index && r.done == s.done && r.currentView == s.currentView &&
      r.data == s.data && r.selectedRowIdx == s.selectedRowIdx && r.totalTabs == s.totalTabs &&
      |r.questions| == |s.questions|
    ensures var r := Run(s, msgs);
      forall i :: 0 <= i < |s.questions| ==>
        r.questions[i].question == s.questions[i].question && r.questions[i].answer == s.questions[i].answer
    decreases |msgs|
  {
    if msgs != [] {
      StepFrame(s, msgs[0]);
      var o := Step(s, msgs[0]);
      if o.cmd != Quit {
        RunKeepsWizard(o.model, msgs[1..]);
      }
    }
  }

  /** k presses of tab. */
  function Tabs(k: nat): (t: seq<Msg>)
    ensures |t| == k
  {
    seq(k, _ => Key("tab"))
  }

  /** With a pane focused, k tab keys move the focus k panes on, modulo the
      number of panes. */
  lemma {:induction false} TabsCycle(s: Snapshot, k: nat)
    requires Ready(s) && 0 <= s.selectedTabIdx
    ensures Run(s, Tabs(k)).selectedTabIdx == (s.selectedTabIdx + k) % s.totalTabs
    decreases k
  {
    var n := s.totalTabs;
    if k > 0 {
      var t := Step(s, Key("tab")).model;
      assert Tabs(k)[0] == Key("tab");
      assert Tabs(k)[1..] == Tabs(k - 1);
      TabsCycle(t, k - 1);
      if s.selectedTabIdx == n - 1 {
        assert t.selectedTabIdx == 0;
        ShiftMod(k - 1, n);
      }
    }
  }

  lemma ShiftMod(x: nat, n: int)
    requires n >= 1
    ensures (n + x) % n == x % n
  {
    var q, r := x / n, x % n;
    var q', r' := (n + x) / n, (n + x) % n;
    var d := q + 1 - q';
    assert n * d == r' - r;
    if d > 0 {
      assert n * d == n + n * (d - 1);
    } else if d < 0 {
      assert n * d == -n - n * (-d - 1);
    }
  }

  /** From the start, the first tab focuses pane 0 and, with two panes, the
      focus then alternates: k + 1 tabs leave pane k % 2 focused. The view
      never leaves the connect screen and the wizard never finishes. */
  lemma TabsFromStart(questions: seq<Question>, data: seq<seq<string>>, k: nat)
    requires Ready(Initial(questions, data))
    ensures Step(Initial(questions, data), Key("tab")).model.selectedTabIdx == 0
    ensures Run(Initial(questions, data), Tabs(k + 1)).selectedTabIdx == k % 2
  {
    var s := Initial(questions, data);
    assert Tabs(k + 1)[0] == Key("tab");
    assert Tabs(k + 1)[1..] == Tabs(k);
    TabsCycle(Step(s, Key("tab")).model, k);
  }

  /** Whatever the user types, the program stays on the connect screen and
      the wizard never finishes. */
  lemma ConnectScreenForever(questions: seq<Question>, data: seq<seq<string>>, msgs: seq<Msg>)
    requires Ready(Initial(questions, data))
    ensures Run(Initial(questions, data), msgs).currentView == "connect"
    ensures !Run(Initial(questions, data), msgs).done
  {
    RunKeepsWizard(Initial(questions, data), msgs);
  }

  /** One line of the finished summary. */
  function SummaryLine(q: Question): string {
    q.question + ": " + q.answer + "\n"
  }

  /** The finished summary: one line per question, in order. */
  function Summary(questions: seq<Question>): string {
    if questions == [] then ""
    else Summary(questions[..|questions| - 1]) + SummaryLine(questions[|questions| - 1])
  }

  /** The summary of two runs of questions is the concatenation of theirs. */
  lemma {:induction false} SummaryConcat(a: seq<Question>, b: seq<Question>)
    ensures Summary(a + b) == Summary(a) + Summary(b)
    decreases |b|
  {
    if b != [] {
      var b' := b[..|b| - 1];
      assert (a + b)[..|a + b| - 1] == a + b';
      assert (a + b)[|a + b| - 1] == b[|b| - 1];
      SummaryConcat(a, b');
      calc {
        Summary(a + b);
        Summary(a + b') + SummaryLine(b[|b| - 1]);
        Summary(a) + Summary(b') + SummaryLine(b[|b| - 1]);
        Summary(a) + Summary(b);
      }
    } else {
      assert a + b == a;
    }
  }

  /** The number of times `c` occurs in `s`. */
  function Occurrences(s: string, c: char): nat {
    if s == [] then 0 else (if s[0] == c then 1 else 0) + Occurrences(s[1..], c)
  }

  lemma {:induction false} OccurrencesConcat(a: string, b: string, c: char)
    ensures Occurrences(a + b, c) == Occurrences(a, c) + Occurrences(b, c)
    decreases |a|
  {
    if a != [] {
      assert (a + b)[0] == a[0];
      assert (a + b)[1..] == a[1..] + b;
      OccurrencesConcat(a[1..], b, c);
    } else {
      assert a + b == b;
    }
  }

  /** When no prompt and no answer holds a newline, the summary has exactly
      one line per question, empty answers included. */
  lemma {:induction false} SummaryLineCount(questions: seq<Question>)
    requires forall i :: 0 <= i < |questions| ==>
      Occurrences(questions[i].question, '\n') == 0 && Occurrences(questions[i].answer, '\n') == 0
    ensures Occurrences(Summary(questions), '\n') == |questions|
    decreases |questions|
  {
    if questions != [] {
      var q := questions[|questions| - 1];
      SummaryLineCount(questions[..|questions| - 1]);
      OccurrencesConcat(q.question, ": ", '\n');
      OccurrencesConcat(q.question + ": ", q.answer, '\n');
      OccurrencesConcat(q.question + ": " + q.answer, "\n", '\n');
      OccurrencesConcat(Summary(questions[..|questions| - 1]), SummaryLine(q), '\n');
    }
  }

  /** Two answered questions give two "prompt: answer" lines. */
  lemma SummaryOfTwo()
    ensures Summary([Question("Name?", "Arthur", NilInput), Question("Quest?", "Grail", NilInput)])
      == "Name?: Arthur\nQuest?: Grail\n"
  {
    var first := Question("Name?", "Arthur", NilInput);
    var second := Question("Quest?", "Grail", NilInput);
    assert [first, second][..1] == [first];
    assert [first][..0] == [];
    assert Summary([first]) == "Name?: Arthur\n";
  }

  /** What View hands to the renderer. */
  datatype Screen =
    | Connect(layout: Layout.ConnectLayout)
    | Finished(summary: string)
    | Loading
    | Asking(prompt: string, field: Input)

  /** The application state, updated in place by the event loop. */
  class Model {
    var currentView: string
    var selectedTabIdx: int
    var totalTabs: int
    var activeTab: string
    var selectedRowIdx: int
    var selectedRowData: seq<string>
    var data: seq<seq<string>>
    var questions: seq<Question>
    var width: int
    var height: int
    var index: int
    var done: bool

    /** The current values of the fields. */
    function State(): Snapshot
      reads this
    {
      Snapshot(currentView, selectedTabIdx, totalTabs, activeTab, selectedRowIdx, selectedRowData,
               data, questions, width, height, index, done)
    }

    /** The state can handle every message and the focus is in range. */
    ghost predicate Valid()
      reads this
    {
      Ready(State())
    }

    constructor New(questions: seq<Question>, data: seq<seq<string>>)
      ensures State() == Initial(questions, data)
      ensures Valid() <==> Ready(Initial(questions, data))
    {
      this.data := data;
      selectedTabIdx := -1;
      totalTabs := 2;
      currentView := "connect";
      this.questions := questions;
      activeTab := "";
      selectedRowIdx := 0;
      selectedRowData := [];
      width, height := 0, 0;
      index := 0;
      done := false;
    }

    /** Moves the focus to the next pane, wrapping to the first. */
    method Next()
      modifies this
      ensures State() == old(State()).(selectedTabIdx := NextTab(old(selectedTabIdx), totalTabs))
      ensures old(Valid()) ==> Valid() && 0 <= selectedTabIdx < totalTabs
    {
      if selectedTabIdx < totalTabs - 1 {
        selectedTabIdx := selectedTabIdx + 1;
      } else {
        selectedTabIdx := 0;
      }
    }

    /** Handles one message, as `Step` specifies. */
    method Update(msg: Msg) returns (cmd: Cmd)
      requires CanUpdate(State(), msg)
      modifies this
      ensures Outcome(State(), cmd) == Step(old(State()), msg)
      ensures old(Valid()) ==> Valid()
    {
      var current := index;
      match msg {
        case WindowSize(w, h) =>
          width := w;
          height := h;
        case Key(k) =>
          if k == "tab" {
            Next();
          } else if k == "ctrl+c" {
            return Quit;
          } else if k == "enter" {
            // the inner switch repeats the key test: only its enter arm runs
            selectedRowData := data[selectedRowIdx];
            activeTab := "table";
          }
        case Other =>
      }
      var q := questions[current];
      questions := questions[current := q.(input := Feed(q.input, msg))];
      cmd := FieldCmd;
    }

    /** The screen for the current state: the connect screen in the connect
        view; otherwise the summary once finished, a placeholder until the
        first resize, and the current question with its field. */
    method View() returns (screen: Screen)
      requires currentView != "connect" ==> 0 <= index < |questions|
      ensures currentView == "connect" ==>
        screen == Connect(Layout.ConnectScreen(width, height, selectedTabIdx, activeTab))
      ensures currentView != "connect" && done ==> screen == Finished(Summary(questions))
      ensures currentView != "connect" && !done && width == 0 ==> screen == Loading
      ensures currentView != "connect" && !done && width != 0 ==>
        screen == Asking(questions[index].question, questions[index].input)
    {
      if currentView == "connect" {
        return Connect(Layout.ConnectScreen(width, height, selectedTabIdx, activeTab));
      }
      var current := questions[index];
      if done {
        var output := "";
        var i := 0;
        while i < |questions|
          invariant 0 <= i <= |questions|
          invariant output == Summary(questions[..i])
        {
          var q := questions[i];
          assert questions[..i + 1][..i] == questions[..i];
          output := output + q.question + ": " + q.answer + "\n";
          i := i + 1;
        }
        assert questions[..i] == questions;
        return Finished(output);
      }
      if width == 0 {
        return Loading;
      }
      return Asking(questions[index].question, current.input);
    }
  }
}
