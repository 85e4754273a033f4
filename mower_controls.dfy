/**
 * The mower control panel (src/components/MowerControls.tsx): editing the
 * start pose, the three manual one-token buttons, and the sequence box whose
 * text is kept upper-cased and which refuses to submit an empty sequence.
 */
module MowerControls {
  import opened Types

  /** The three command tokens: G turns left, D turns right, A advances. */
  predicate IsCommandChar(c: char) { c == 'G' || c == 'D' || c == 'A' }

  predicate IsCommandString(s: string)
  {
    forall i :: 0 <= i < |s| ==> IsCommandChar(s[i])
  }

  // ---- Pose editing --------------------------------------------------------

  datatype Coordinate = X | Y

  /** handlePositionChange: the edited coordinate becomes `Math.max(0, value)`. */
  function HandlePositionChange(pos: MowerPosition, field: Coordinate, value: int): (r: MowerPosition)
    ensures r.direction == pos.direction
    ensures field == X ==> r.x >= 0 && r.y == pos.y
    ensures field == Y ==> r.y >= 0 && r.x == pos.x
    ensures value >= 0 ==> (if field == X then r.x else r.y) == value
    ensures value < 0 ==> (if field == X then r.x else r.y) == 0
  {
    match field
    case X => pos.(x := Max(0, value))
    case Y => pos.(y := Max(0, value))
  }

  /** handleDirectionChange: only the heading is replaced. */
  function HandleDirectionChange(pos: MowerPosition, direction: Direction): (r: MowerPosition)
    ensures r.x == pos.x && r.y == pos.y && r.direction == direction
  {
    pos.(direction := direction)
  }

  /** One change event of a coordinate input: `parseInt(text) || 0`, then the edit. */
  function OnCoordinateInput(pos: MowerPosition, field: Coordinate, parsed: Option<int>): (r: MowerPosition)
    ensures parsed.None? ==> r == HandlePositionChange(pos, field, 0)
    ensures parsed.Some? ==> r == HandlePositionChange(pos, field, parsed.value)
  {
    HandlePositionChange(pos, field, OrDefault(parsed, 0))
  }

  // ---- Manual buttons ------------------------------------------------------

  datatype Button = TurnLeft | Advance | TurnRight

  /** Each button sends one fixed token. */
  function ButtonCommand(b: Button): (cmd: string)
    ensures |cmd| == 1 && IsCommandString(cmd)
    ensures (cmd == "G") == (b == TurnLeft)
    ensures (cmd == "D") == (b == TurnRight)
  {
    match b
    case TurnLeft => "G"
    case Advance => "A"
    case TurnRight => "D"
  }

  lemma ButtonCommandInjective(a: Button, b: Button)
    ensures ButtonCommand(a) == ButtonCommand(b) ==> a == b
  {
  }

  /** A press dispatches the button's token, unless the panel is disabled. */
  function PressButton(b: Button, disabled: bool): (r: Option<string>)
    ensures r.None? <==> disabled
    ensures r.Some? ==> r.value == ButtonCommand(b) && |r.value| == 1 && IsCommandString(r.value)
  {
    if disabled then None else Some(ButtonCommand(b))
  }

  // ---- Sequence box --------------------------------------------------------

  const DefaultSequence: string := "GAGAGAGAA"

  predicate IsLower(c: char) { 'a' <= c <= 'z' }

  /** Upper-casing of one character (ASCII letters only). */
  function UpperChar(c: char): (u: char)
    ensures !IsLower(u)
    ensures IsLower(c) ==> 'A' <= u <= 'Z' && c as int - u as int == 'a' as int - 'A' as int
    ensures !IsLower(c) ==> u == c
  {
    if IsLower(c) then (c as int - 32) as char else c
  }

  /** `text.toUpperCase()`, restricted to ASCII letters. */
  function ToUpper(s: string): (r: string)
    ensures |r| == |s|
    ensures forall i :: 0 <= i < |r| ==> !IsLower(r[i])
    ensures forall i :: 0 <= i < |r| ==> r[i] == UpperChar(s[i])
  {
    seq(|s|, i requires 0 <= i < |s| => UpperChar(s[i]))
  }

  lemma ToUpperIdempotent(s: string)
    ensures ToUpper(ToUpper(s)) == ToUpper(s)
  {
  }

  /** Commands typed in either case become a command string. */
  lemma ToUpperAcceptsEitherCase(s: string)
    requires forall i :: 0 <= i < |s| ==> IsCommandChar(s[i]) || IsCommandChar(UpperChar(s[i]))
    ensures IsCommandString(ToUpper(s))
  {
  }

  /** The execute button: the stored sequence, unless disabled or empty. */
  function SubmitSequence(sequence: string, disabled: bool): (r: Option<string>)
    ensures r.None? <==> disabled || sequence == ""
    ensures r.Some? ==> r.value == sequence && |r.value| > 0
  {
    if disabled || sequence == "" then None else Some(sequence)
  }

  /** The sequence box's local state. */
  class SequenceBox {
    var sequence: string

    /** The stored text holds no lower-case letter. */
    ghost predicate Valid()
      reads this
    {
      forall i :: 0 <= i < |sequence| ==> !IsLower(sequence[i])
    }

    constructor ()
      ensures Valid() && sequence == DefaultSequence
    {
      sequence := DefaultSequence;
    }

    /** Typing replaces the stored text by its upper-cased form. */
    method OnChange(text: string)
      modifies this
      ensures Valid() && sequence == ToUpper(text)
      ensures |sequence| == |text|
    {
      sequence := ToUpper(text);
    }

    /** Pressing execute: what is handed to the dispatcher, if anything. */
    method Execute(disabled: bool) returns (dispatched: Option<string>)
      requires Valid()
      ensures dispatched == SubmitSequence(sequence, disabled)
      ensures dispatched.Some? ==> forall i :: 0 <= i < |dispatched.value| ==> !IsLower(dispatched.value[i])
    {
      dispatched := SubmitSequence(sequence, disabled);
    }
  }
}
