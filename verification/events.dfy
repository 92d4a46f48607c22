/** Values exchanged with the terminal event loop: the messages the model
    receives and the commands it hands back. */
module Events {

  /** A message delivered to the model's Update. */
  datatype Msg =
    | WindowSize(width: int, height: int)  // the terminal was resized
    | Key(name: string)                     // a key press, named as the event loop spells it ("tab", "enter", "ctrl+c", ...)
    | Other                                 // any other message, such as a cursor blink for an input field

  /** A command returned to the event loop. */
  datatype Cmd =
    | Quit      // stop the program
    | FieldCmd  // whatever command the focused input field returned for the message
}
