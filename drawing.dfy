/**
 The plotting surface as the diagram code sees it: every call that puts
 something on the axes appends one command, in call order. Colours are kept
 by name together with how many times `darken` was applied to them; the
 HLS arithmetic of `darken` itself is not modelled.
 */
module Drawing {
  import opened Lorentz

  /** An optional argument, such as a marker colour that may be left out. */
  datatype Option<T> = None | Some(value: T)

  datatype Colour = Colour(name: string, darkenings: nat)

  /** `plotting.darken`: the same colour one shade darker. */
  function Darken(c: Colour): Colour
  {
    Colour(c.name, c.darkenings + 1)
  }

  /** Line width and matplotlib line style. */
  datatype Stroke = Stroke(width: int, style: string)

  /** The width-1 dotted stroke of simultaneity lines and light rays. */
  const Dotted: Stroke := Stroke(1, ":")

  /** The default marker shape of `draw_marker`, a square. */
  const SquareShape: string := "s"

  datatype Command =
    | Line(from: Event, to: Event, colour: Colour, stroke: Stroke)
    | Marker(at: Event, colour: Colour, shape: string)
    | Arrow(caption: string, start: Event, offset: Event, colour: Colour)

  /** Where an arrow's head is. */
  function ArrowTip(c: Command): Event
    requires c.Arrow?
  {
    Event(c.start.x + c.offset.x, c.start.t + c.offset.t)
  }

  /** Appending pieces one after another is appending their concatenation. */
  lemma AppendThree<T>(a: seq<T>, b: seq<T>, c: seq<T>)
    ensures a + b + c == a + (b + c)
  {
  }

  lemma AppendFour<T>(a: seq<T>, b: seq<T>, c: seq<T>, d: seq<T>)
    ensures a + b + c + d == a + (b + c + d)
  {
  }

  /** An `Axes` object: the commands drawn on it so far. */
  class Canvas {
    var commands: seq<Command>

    constructor()
      ensures commands == []
    {
      commands := [];
    }

    /** `plotting.draw_line` for the two ends of the drawn points. */
    method DrawLine(from: Event, to: Event, colour: Colour, stroke: Stroke)
      modifies this
      ensures commands == old(commands) + [Line(from, to, colour, stroke)]
    {
      commands := commands + [Line(from, to, colour, stroke)];
    }

    /** `plotting.draw_marker` without a label. */
    method DrawMarker(at: Event, colour: Colour, shape: string)
      modifies this
      ensures commands == old(commands) + [Marker(at, colour, shape)]
    {
      commands := commands + [Marker(at, colour, shape)];
    }

    /** `plotting.draw_axis`: an arrow from `start` by `offset`, labelled at its tip. */
    method DrawAxis(caption: string, start: Event, offset: Event, colour: Colour)
      modifies this
      ensures commands == old(commands) + [Arrow(caption, start, offset, colour)]
    {
      commands := commands + [Arrow(caption, start, offset, colour)];
    }
  }
}
