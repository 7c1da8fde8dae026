/**
 `RoundedResizingDirection`, an option set over two axes. The model works on
 the set of axes; the raw-value encoding of the option set is kept alongside.
 */
module Resizing {

  datatype Axis = Horizontal | Vertical

  /** The option-set value `[Horizontal, Vertical]`. */
  const Both: set<Axis> := {Horizontal, Vertical}

  /** The raw value of the single-axis option: 0b1 and 0b10. */
  function AxisRawValue(a: Axis): (raw: int)
  {
    match a
    case Horizontal => 1
    case Vertical => 2
  }

  /** Raw value of an option set: the bitwise union of its members' raw values. */
  function RawValue(d: set<Axis>): (raw: int)
    ensures 0 <= raw < 4
  {
    (if Horizontal in d then AxisRawValue(Horizontal) else 0)
    + (if Vertical in d then AxisRawValue(Vertical) else 0)
  }

  /**
   The axes an arbitrary raw value contains, as `contains` on the option set
   decides it: bit 0 for Horizontal, bit 1 for Vertical. With a positive
   divisor Dafny's `/` and `%` are floor division and a non-negative
   remainder, which pick out the same bits as a two's-complement `&` and
   shift, negative raw values included; higher bits are ignored.
   */
  function FromRawValue(raw: int): (d: set<Axis>)
  {
    (if raw % 2 == 1 then {Horizontal} else {})
    + (if (raw / 2) % 2 == 1 then {Vertical} else {})
  }

  /** Decoding an encoded option set gives back the same set of axes. */
  lemma RawValueRoundTrip(d: set<Axis>)
    ensures FromRawValue(RawValue(d)) == d
  {
    var raw := RawValue(d);
    assert raw % 2 == 1 <==> Horizontal in d;
    assert (raw / 2) % 2 == 1 <==> Vertical in d;
    forall a | a in d
      ensures a in FromRawValue(raw)
    {
      match a
      case Horizontal =>
      case Vertical =>
    }
    forall a | a in FromRawValue(raw)
      ensures a in d
    {
      match a
      case Horizontal =>
      case Vertical =>
    }
  }

  /** Encoding what a raw value contains keeps exactly its two low bits. */
  lemma FromRawValueKeepsLowBits(raw: int)
    ensures RawValue(FromRawValue(raw)) == raw % 4
  {
  }

  /** `Both` is the union of the two single-axis options, raw value 0b11. */
  lemma BothIsUnion()
    ensures Both == {Horizontal} + {Vertical}
    ensures RawValue(Both) == AxisRawValue(Horizontal) + AxisRawValue(Vertical) == 3
  {
  }
}
