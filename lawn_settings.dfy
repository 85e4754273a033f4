/**
 * The lawn settings form (src/components/LawnSettings.tsx): each dimension
 * field is clamped to [1, 20] and written into a copy of the dimensions
 * record; an empty, unparsable or zero input counts as 1.
 */
module LawnSettings {
  import opened Types

  const MinDimension: int := 1
  const MaxDimension: int := 20

  /** `Math.max(1, Math.min(20, value))`. */
  function Clamp(value: int): (r: int)
    ensures MinDimension <= r <= MaxDimension
    ensures MinDimension <= value <= MaxDimension ==> r == value
    ensures value < MinDimension ==> r == MinDimension
    ensures value > MaxDimension ==> r == MaxDimension
  {
    Max(MinDimension, Min(MaxDimension, value))
  }

  /** The two editable fields of the dimensions record. */
  datatype DimensionField = Width | Height

  /** handleDimensionChange: the edited field gets the clamped value, the other is kept. */
  function HandleDimensionChange(dims: LawnDimensions, field: DimensionField, value: int): (r: LawnDimensions)
    ensures field == Width ==> r.width == Clamp(value) && r.height == dims.height
    ensures field == Height ==> r.height == Clamp(value) && r.width == dims.width
  {
    match field
    case Width => dims.(width := Clamp(value))
    case Height => dims.(height := Clamp(value))
  }

  /**
   * One change event of a number input: `parseInt(text) || 1`, then the clamp.
   * `parsed` is None when the text does not parse.
   */
  function OnDimensionInput(dims: LawnDimensions, field: DimensionField, parsed: Option<int>): (r: LawnDimensions)
    ensures field == Width ==> MinDimension <= r.width <= MaxDimension && r.height == dims.height
    ensures field == Height ==> MinDimension <= r.height <= MaxDimension && r.width == dims.width
    ensures (parsed.None? || parsed == Some(0)) ==>
              r == HandleDimensionChange(dims, field, 1)
    ensures parsed.Some? && parsed.value != 0 ==>
              r == HandleDimensionChange(dims, field, parsed.value)
  {
    HandleDimensionChange(dims, field, OrDefault(parsed, 1))
  }

  lemma ClampIdempotent(value: int)
    ensures Clamp(Clamp(value)) == Clamp(value)
  {
  }

  lemma ClampExamples()
    ensures Clamp(0) == 1 && Clamp(25) == 20 && Clamp(7) == 7
  {
  }

  /** Editing both fields in turn gives the clamped pair, whatever the previous record. */
  lemma BothFieldsClamped(dims: LawnDimensions)
    ensures HandleDimensionChange(HandleDimensionChange(dims, Width, 0), Height, 25)
         == LawnDimensions(1, 20)
  {
  }
}
