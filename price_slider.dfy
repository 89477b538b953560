/** The two-thumb price slider of the catalog filters
    (src/components/PriceSlider.tsx). The thumbs' number values are inputs;
    the browser keeps a range input between its `min` and `max` and the
    percentages that place the coloured bar are presentation only. */
module PriceSlider {

  /** Where the lower thumb lands (src/components/PriceSlider.tsx:60). */
  function LowerThumb(input: int, maxVal: int): int {
    if input <= maxVal - 1 then input else maxVal - 1
  }

  /** Where the upper thumb lands (src/components/PriceSlider.tsx:75). */
  function UpperThumb(input: int, minVal: int): int {
    if input >= minVal + 1 then input else minVal + 1
  }

  function Distance(a: int, b: int): nat {
    if a >= b then a - b else b - a
  }

  /** The lower thumb stays strictly below the upper one, goes where it was
      dragged when that is allowed, and otherwise stops at the nearest
      allowed value. */
  lemma LowerThumbMeaning(input: int, maxVal: int)
    ensures LowerThumb(input, maxVal) < maxVal
    ensures input < maxVal ==> LowerThumb(input, maxVal) == input
    ensures forall y :: y < maxVal ==> Distance(LowerThumb(input, maxVal), input) <= Distance(y, input)
  {
  }

  /** The same for the upper thumb, which stays strictly above the lower one. */
  lemma UpperThumbMeaning(input: int, minVal: int)
    ensures UpperThumb(input, minVal) > minVal
    ensures input > minVal ==> UpperThumb(input, minVal) == input
    ensures forall y :: y > minVal ==> Distance(UpperThumb(input, minVal), input) <= Distance(y, input)
  {
  }

  class Slider {
    var minVal: int
    var maxVal: int
    /** `minValRef.current` and `maxValRef.current`. */
    var minRef: int
    var maxRef: int

    /** The state for the `value` prop (src/components/PriceSlider.tsx:15-18). */
    constructor (value: (int, int))
      ensures minVal == value.0 && maxVal == value.1 && minRef == value.0 && maxRef == value.1
    {
      minVal := value.0;
      maxVal := value.1;
      minRef := value.0;
      maxRef := value.1;
    }

    /** Dragging the lower thumb (src/components/PriceSlider.tsx:59-64). */
    method MoveLower(input: int)
      modifies this`minVal, this`minRef
      ensures minVal == LowerThumb(input, maxVal) && minRef == minVal
      ensures minVal < maxVal
    {
      var value := if input <= maxVal - 1 then input else maxVal - 1;
      minVal := value;
      minRef := value;
    }

    /** Dragging the upper thumb (src/components/PriceSlider.tsx:74-79). */
    method MoveUpper(input: int)
      modifies this`maxVal, this`maxRef
      ensures maxVal == UpperThumb(input, minVal) && maxRef == maxVal
      ensures maxVal > minVal
    {
      var value := if input >= minVal + 1 then input else minVal + 1;
      maxVal := value;
      maxRef := value;
    }

    /** handleMouseUp (src/components/PriceSlider.tsx:47-49): the range
        reported to the filters. */
    method HandleMouseUp() returns (range: (int, int))
      ensures range == (minVal, maxVal)
    {
      range := (minVal, maxVal);
    }

    /** A new `value` prop (src/components/PriceSlider.tsx:23-26) moves both
        thumbs; the refs are left as they were. */
    method Resync(value: (int, int))
      modifies this`minVal, this`maxVal
      ensures minVal == value.0 && maxVal == value.1
    {
      minVal := value.0;
      maxVal := value.1;
    }
  }

  /** After one drag of each thumb the reported range is ordered, whatever
      range the slider started with. */
  method DragBothThumbs(value: (int, int), lower: int, upper: int) returns (range: (int, int))
    ensures range.0 < range.1
    ensures range.0 == LowerThumb(lower, value.1)
  {
    var s := new Slider(value);
    s.MoveLower(lower);
    s.MoveUpper(upper);
    range := s.HandleMouseUp();
  }
}
