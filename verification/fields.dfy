/** The answer-capture widgets. Their editing behaviour lives in a widget
    library and is not modelled: an input is an abstract value that records,
    in order, every message it has been fed, which is all that the
    application's routing decides. */
module Fields {
  import opened Events

  datatype FieldKind = ShortAnswer | LongAnswer

  /** A question's input: absent (a question built without a field) or a
      single-line / multi-line field together with the messages it consumed. */
  datatype Input =
    | NilInput
    | Field(kind: FieldKind, fed: seq<Msg>)

  /** A freshly created single-line field. */
  function NewShortAnswerField(): (i: Input)
    ensures i.Field? && i.kind == ShortAnswer && i.fed == []
  {
    Field(ShortAnswer, [])
  }

  /** A freshly created multi-line field. */
  function NewLongAnswerField(): (i: Input)
    ensures i.Field? && i.kind == LongAnswer && i.fed == []
  {
    Field(LongAnswer, [])
  }

  /** The field's own Update: consumes one message. Calling it on an absent
      input is a nil dereference, hence the precondition. */
  function Feed(i: Input, msg: Msg): Input
    requires i.Field?
  {
    i.(fed := i.fed + [msg])
  }
}
