/** How raw input events are read as navigation commands. */
module Input {

  /** What an input event asks of the carousel. */
  datatype Command = Next | Previous | Ignore

  /** The step a command asks for: +1, -1, or none. */
  function Delta(c: Command): (d: int)
    ensures -1 <= d <= 1
    ensures d > 0 <==> c == Next
    ensures d < 0 <==> c == Previous
    ensures d == 0 <==> c == Ignore
  {
    match c
    case Next => 1
    case Previous => -1
    case Ignore => 0
  }

  /** A key press: the right arrow asks for the next slide, the left arrow for
      the previous one, and every other key is ignored. */
  function KeyCommand(key: string): (c: Command)
    ensures c == Next <==> key == "ArrowRight"
    ensures c == Previous <==> key == "ArrowLeft"
  {
    if key == "ArrowRight" then Next
    else if key == "ArrowLeft" then Previous
    else Ignore
  }

  /** A wheel event, read by the sign of its vertical delta: scrolling down
      asks for the next slide, up for the previous one, and no vertical
      movement is ignored. */
  function WheelCommand(deltaY: real): (c: Command)
    ensures c == Next <==> deltaY > 0.0
    ensures c == Previous <==> deltaY < 0.0
  {
    if deltaY > 0.0 then Next
    else if deltaY < 0.0 then Previous
    else Ignore
  }

  /** The two channels agree: each command can be issued by a key and by the
      wheel alike. */
  lemma ChannelsAgree(c: Command)
    ensures KeyCommand(if c == Next then "ArrowRight" else if c == Previous then "ArrowLeft" else "") == c
    ensures WheelCommand(Delta(c) as real) == c
  {
  }
}
