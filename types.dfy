/**
 * The records shared by the mower front-end (src/types/mower.ts): the lawn,
 * the mower pose, a path point, and the single-mower request and response of
 * the remote executor.  Numbers are unbounded integers.
 */
module Types {

  datatype Option<T> = None | Some(value: T)

  /** A heading: one of the four cardinal letters. */
  datatype Direction = N | E | S | W

  /** The mower pose: a cell and a heading. */
  datatype MowerPosition = MowerPosition(x: int, y: int, direction: Direction)

  /** The lawn extent in cells. */
  datatype LawnDimensions = LawnDimensions(width: int, height: int)

  /** One entry of the path history. */
  datatype Point = Point(x: int, y: int)

  /** The body of a single-mower execute call: three strings. */
  datatype MowerCommandRequest =
    MowerCommandRequest(lawnDimensions: string, mowerPosition: string, commands: string)

  /** The executor's answer; `position` is a human-readable echo the client ignores. */
  datatype MowerResponse =
    MowerResponse(mowerId: string, x: int, y: int, direction: Direction, position: string)

  /** `Math.max` and `Math.min` on integers. */
  function Max(a: int, b: int): int { if a >= b then a else b }
  function Min(a: int, b: int): int { if a <= b then a else b }

  /** The wire letter of a heading. */
  function DirectionLetter(d: Direction): (c: char)
    ensures c in "NESW"
  {
    match d
    case N => 'N'
    case E => 'E'
    case S => 'S'
    case W => 'W'
  }

  /**
   * The JavaScript idiom `parseInt(text) || fallback` on a number field:
   * `parsed` is None when the text does not parse (NaN); NaN and 0 are both
   * falsy, so either gives the fallback, and any other number is kept.
   */
  function OrDefault(parsed: Option<int>, fallback: int): (r: int)
    ensures parsed.None? ==> r == fallback
    ensures parsed == Some(0) ==> r == fallback
    ensures parsed.Some? && parsed.value != 0 ==> r == parsed.value
    ensures r == fallback || (parsed.Some? && r == parsed.value)
  {
    match parsed
    case None => fallback
    case Some(v) => if v == 0 then fallback else v
  }
}
