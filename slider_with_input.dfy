/**
 * A slider paired with a spin box (`SliderWithInputWidget`), a pair of
 * them picking a range (`RangeSliderWidget`), and a slider with a value
 * label (`SimpleSliderInput`).
 *
 * Values are integers: the widget is modelled with no decimals, so the
 * slider and the spin box (a `QSpinBox`) work on the same numbers. As
 * written, the handlers hand that spin box floats, which PyQt refuses with
 * `TypeError`; the members named "as written" model that, and the others
 * the intended handlers, which hand it integers. A signal is modelled by
 * the sequence of values it carried during a call.
 */
module SliderWithInput {
  import opened QtRange
  import opened Common

  /** What the spin box shows after its number: a space and the suffix, or nothing. */
  function SuffixText(suffix: string): (r: string)
    ensures suffix == "" <==> r == ""
    ensures suffix != "" ==> r == " " + suffix
  {
    if suffix != "" then " " + suffix else ""
  }

  class SliderWithInputWidget {
    var minimum: int
    var maximum: int
    /** What `get_value` reports. */
    var value: int
    var caption: string
    var suffix: string
    /** Set while the widget itself moves a control, so that the control's signal is ignored. */
    var updating: bool
    const slider: RangeControl
    const input: RangeControl
    /** The numbers the two labels under the slider show. */
    var minShown: int
    var maxShown: int
    var inputSuffix: string

    /** Both controls are sound and distinct; this holds even in the middle of an update. */
    ghost predicate Sound()
      reads this, slider, input
    {
      slider.Valid() && input.Valid() && slider != input
    }

    /**
     * At rest: both controls have the range the widget's limits give them
     * (Qt lowers the minimum to a maximum below it), they show the same
     * number, and the labels show the limits.
     */
    ghost predicate Valid()
      reads this, slider, input
    {
      && Sound()
      && !updating
      && slider.lo == Lesser(minimum, maximum) && slider.hi == maximum
      && input.lo == slider.lo && input.hi == slider.hi
      && slider.value == input.value
      && minShown == minimum && maxShown == maximum
      && inputSuffix == SuffixText(suffix)
    }

    /**
     * `SliderWithInputWidget(minimum, maximum, value, label, suffix)`: both
     * controls get the range and the value, which they clamp; the value
     * reported is the one given, even when outside the range.
     */
    constructor (minimum0: int, maximum0: int, value0: int, caption0: string, suffix0: string)
      ensures Valid() && fresh(slider) && fresh(input)
      ensures minimum == minimum0 && maximum == maximum0 && value == value0
      ensures slider.value == Clamp(value0, Lesser(minimum0, maximum0), maximum0)
      ensures caption == caption0 && suffix == suffix0
    {
      minimum, maximum, value := minimum0, maximum0, value0;
      caption, suffix := caption0, suffix0;
      updating := false;
      slider := new RangeControl();
      input := new RangeControl();
      minShown, maxShown := minimum0, maximum0;
      inputSuffix := SuffixText(suffix0);
      new;
      var _ := slider.SetMinimum(minimum0);
      var _ := slider.SetMaximum(maximum0);
      var _ := slider.SetValue(value0);
      var _ := input.SetMinimum(minimum0);
      var _ := input.SetMaximum(maximum0);
      var _ := input.SetValue(value0);
    }

    /**
     * `_on_slider_changed`: ignored while updating; otherwise the value is
     * taken, the spin box follows (its own signal finds the guard set),
     * and `value_changed` carries the value once.
     */
    method OnSliderChanged(v: int) returns (emitted: seq<int>)
      requires Sound()
      modifies this`value, this`updating, slider, input
      decreases if updating then 0 else 1
      ensures Sound() && updating == old(updating)
      ensures slider.lo == old(slider.lo) && slider.hi == old(slider.hi)
      ensures input.lo == old(input.lo) && input.hi == old(input.hi)
      ensures slider.value == old(slider.value)
      ensures old(updating) ==> emitted == [] && value == old(value) && input.value == old(input.value)
      ensures !old(updating) ==> emitted == [v] && value == v && input.value == Clamp(v, input.lo, input.hi)
    {
      if updating {
        return [];
      }
      updating := true;
      value := v;
      var moved := input.SetValue(v);
      if moved {
        var _ := OnInputChanged(input.value);
      }
      updating := false;
      emitted := [v];
    }

    /** `_on_input_changed`: the same, with the roles of the two controls exchanged. */
    method OnInputChanged(v: int) returns (emitted: seq<int>)
      requires Sound()
      modifies this`value, this`updating, slider, input
      decreases if updating then 0 else 1
      ensures Sound() && updating == old(updating)
      ensures slider.lo == old(slider.lo) && slider.hi == old(slider.hi)
      ensures input.lo == old(input.lo) && input.hi == old(input.hi)
      ensures input.value == old(input.value)
      ensures old(updating) ==> emitted == [] && value == old(value) && slider.value == old(slider.value)
      ensures !old(updating) ==> emitted == [v] && value == v && slider.value == Clamp(v, slider.lo, slider.hi)
    {
      if updating {
        return [];
      }
      updating := true;
      value := v;
      var moved := slider.SetValue(v);
      if moved {
        var _ := OnSliderChanged(slider.value);
      }
      updating := false;
      emitted := [v];
    }

    /**
     * The user moves the slider: a move that changes its position is taken
     * as the value, the spin box shows the same number, and `value_changed`
     * fires exactly once.
     */
    method SlideTo(v: int) returns (emitted: seq<int>)
      requires Valid()
      modifies this`value, this`updating, slider, input
      ensures Valid()
      ensures slider.value == Clamp(v, slider.lo, slider.hi)
      ensures slider.value != old(slider.value) ==> value == slider.value && emitted == [value]
      ensures slider.value == old(slider.value) ==> value == old(value) && emitted == []
    {
      emitted := [];
      var moved := slider.SetValue(v);
      if moved {
        emitted := OnSliderChanged(slider.value);
      }
    }

    /**
     * `_on_slider_changed` as written: `value / (10 ** 0)` is a float, which
     * the integer spin box's `setValue` refuses with `TypeError`. The value
     * has been taken, the spin box keeps its number, `value_changed` does
     * not fire, and the guard stays set, so every later handler call
     * returns at once.
     */
    method OnSliderChangedAsWritten(v: int) returns (emitted: seq<int>, typeError: bool)
      modifies this`value, this`updating
      ensures updating && emitted == [] && typeError == !old(updating)
      ensures value == if old(updating) then old(value) else v
    {
      emitted, typeError := [], !updating;
      if typeError {
        updating := true;
        value := v;
      }
    }

    /** The user moves the slider, as written: a move runs the failing handler. */
    method SlideToAsWritten(v: int) returns (emitted: seq<int>, typeError: bool)
      requires Valid()
      modifies this`value, this`updating, slider`value
      ensures Sound() && emitted == []
      ensures slider.value == Clamp(v, slider.lo, slider.hi) && input.value == old(input.value)
      ensures slider.value != old(slider.value) ==> typeError && updating && value == slider.value
      ensures slider.value == old(slider.value) ==> !typeError && Valid() && value == old(value)
    {
      emitted, typeError := [], false;
      var moved := slider.SetValue(v);
      if moved {
        emitted, typeError := OnSliderChangedAsWritten(slider.value);
      }
    }

    /** The user enters a number in the spin box: as for the slider. */
    method TypeValue(v: int) returns (emitted: seq<int>)
      requires Valid()
      modifies this`value, this`updating, slider, input
      ensures Valid()
      ensures input.value == Clamp(v, input.lo, input.hi)
      ensures input.value != old(input.value) ==> value == input.value && emitted == [value]
      ensures input.value == old(input.value) ==> value == old(value) && emitted == []
    {
      emitted := [];
      var moved := input.SetValue(v);
      if moved {
        emitted := OnInputChanged(input.value);
      }
    }

    /**
     * `set_value`: a value outside the limits is ignored; one inside them
     * is taken and shown by both controls. The guard is set meanwhile, so
     * `value_changed` does not fire.
     */
    method SetValue(v: int) returns (emitted: seq<int>)
      requires Valid()
      modifies this`value, this`updating, slider, input
      ensures Valid() && emitted == []
      ensures minimum <= v <= maximum ==> value == v && slider.value == v && input.value == v
      ensures !(minimum <= v <= maximum) ==>
                value == old(value) && slider.value == old(slider.value) && input.value == old(input.value)
    {
      emitted := [];
      if minimum <= v <= maximum {
        value := v;
        updating := true;
        var moved := slider.SetValue(v);
        if moved {
          var e := OnSliderChanged(slider.value);
          emitted := emitted + e;
        }
        moved := input.SetValue(v);
        if moved {
          var e := OnInputChanged(input.value);
          emitted := emitted + e;
        }
        updating := false;
      }
    }

    /**
     * `set_value` handed a float, as a range slider hands on what
     * `value_changed(float)` carried: within the limits the value is taken
     * and the slider moves (its handler finds the guard set), then the
     * integer spin box refuses the float with `TypeError`, leaving the
     * guard set; outside them nothing happens.
     */
    method SetValueFloat(v: int) returns (typeError: bool)
      requires Valid()
      modifies this`value, this`updating, slider, input
      ensures Sound() && input.value == old(input.value)
      ensures slider.lo == old(slider.lo) && slider.hi == old(slider.hi)
      ensures input.lo == old(input.lo) && input.hi == old(input.hi)
      ensures typeError <==> minimum <= v <= maximum
      ensures typeError ==> updating && value == v && slider.value == v
      ensures !typeError ==> Valid() && value == old(value) && slider.value == old(slider.value)
    {
      typeError := false;
      if minimum <= v <= maximum {
        value := v;
        updating := true;
        var moved := slider.SetValue(v);
        if moved {
          var _ := OnSliderChanged(slider.value);
        }
        typeError := true;
      }
    }

    method GetValue() returns (v: int)
      ensures v == value
    {
      v := value;
    }

    /**
     * `set_range`: the limits change and both controls follow, each range
     * change that clamps a control's number firing its handler; then a
     * value still outside the limits is moved to the nearer one. Both
     * controls end at the same number, inside the new limits when they
     * are ordered, and so does the value; a range that already holds the
     * value moves nothing and fires nothing.
     */
    method SetRange(lo: int, hi: int) returns (emitted: seq<int>)
      requires Valid()
      modifies this, slider, input
      ensures Valid() && minimum == lo && maximum == hi
      ensures caption == old(caption) && suffix == old(suffix)
      ensures lo <= hi ==> lo <= value <= hi
      ensures old(value) == old(slider.value) && lo <= old(value) <= hi ==>
                emitted == [] && value == old(value) && slider.value == old(value)
    {
      emitted := FollowLimits(lo, hi);
      minimum, maximum := lo, hi;
      minShown, maxShown := lo, hi;
      if value < lo {
        var e := SetValue(lo);
        emitted := emitted + e;
      } else if value > hi {
        var e := SetValue(hi);
        emitted := emitted + e;
      }
    }

    /**
     * The four limit changes of `set_range`, slider first: whatever fires
     * on the way, both controls end with the new range at the same number.
     */
    method FollowLimits(lo: int, hi: int) returns (emitted: seq<int>)
      requires Valid()
      modifies this`value, this`updating, slider, input
      ensures Sound() && !updating
      ensures slider.lo == Lesser(lo, hi) && slider.hi == hi
      ensures input.lo == slider.lo && input.hi == slider.hi
      ensures slider.value == input.value
      ensures old(value) == old(slider.value) && lo <= old(value) <= hi ==>
                emitted == [] && value == old(value) && slider.value == old(value)
    {
      var e1 := SliderLimit(true, lo);
      var e2 := SliderLimit(false, hi);
      var e3 := InputLimit(true, lo);
      var e4 := InputLimit(false, hi);
      emitted := e1 + e2 + e3 + e4;
    }

    /**
     * One limit of the slider changes (`setMinimum` when `lower`,
     * `setMaximum` otherwise); a clamped position fires the slider's
     * handler, which the spin box follows within its own range.
     */
    method SliderLimit(lower: bool, m: int) returns (emitted: seq<int>)
      requires Sound() && !updating
      modifies this`value, this`updating, slider, input
      ensures Sound() && !updating
      ensures lower ==> slider.lo == m && slider.hi == Greater(old(slider.hi), m)
      ensures !lower ==> slider.lo == Lesser(old(slider.lo), m) && slider.hi == m
      ensures slider.value == Clamp(old(slider.value), slider.lo, slider.hi)
      ensures input.lo == old(input.lo) && input.hi == old(input.hi)
      ensures slider.value == old(slider.value) ==> value == old(value) && input.value == old(input.value) && emitted == []
      ensures slider.value != old(slider.value) ==>
                value == slider.value && input.value == Clamp(value, input.lo, input.hi) && emitted == [value]
    {
      var moved;
      if lower {
        moved := slider.SetMinimum(m);
      } else {
        moved := slider.SetMaximum(m);
      }
      emitted := [];
      if moved {
        emitted := OnSliderChanged(slider.value);
      }
    }

    /** One limit of the spin box changes; a clamped number fires its handler, which the slider follows. */
    method InputLimit(lower: bool, m: int) returns (emitted: seq<int>)
      requires Sound() && !updating
      modifies this`value, this`updating, slider, input
      ensures Sound() && !updating
      ensures lower ==> input.lo == m && input.hi == Greater(old(input.hi), m)
      ensures !lower ==> input.lo == Lesser(old(input.lo), m) && input.hi == m
      ensures input.value == Clamp(old(input.value), input.lo, input.hi)
      ensures slider.lo == old(slider.lo) && slider.hi == old(slider.hi)
      ensures input.value == old(input.value) ==> value == old(value) && slider.value == old(slider.value) && emitted == []
      ensures input.value != old(input.value) ==>
                value == input.value && slider.value == Clamp(value, slider.lo, slider.hi) && emitted == [value]
    {
      var moved;
      if lower {
        moved := input.SetMinimum(m);
      } else {
        moved := input.SetMaximum(m);
      }
      emitted := [];
      if moved {
        emitted := OnInputChanged(input.value);
      }
    }

    method GetRange() returns (lo: int, hi: int)
      ensures lo == minimum && hi == maximum
    {
      lo, hi := minimum, maximum;
    }

    /** `set_label`: only the stored text changes; the label on screen is not rebuilt. */
    method SetCaption(c: string)
      modifies this`caption
      ensures caption == c
    {
      caption := c;
    }

    /** `set_suffix`: the spin box shows the new suffix after a space, or none. */
    method SetSuffix(s: string)
      requires Valid()
      modifies this`suffix, this`inputSuffix
      ensures Valid() && suffix == s
    {
      suffix := s;
      inputSuffix := SuffixText(s);
    }
  }

  // ---------------------------------------------------------------------
  // the ends of a range slider

  /** A move of one end of a range slider to a value. */
  datatype Handle = Lower(to: int) | Upper(to: int)

  predicate Ordered(p: (int, int)) { p.0 <= p.1 }

  /**
   * `_on_min_changed` / `_on_max_changed` on the pair of ends: the moved
   * end takes the value, and the other end is pushed along when crossed.
   */
  function Move(p: (int, int), h: Handle): (r: (int, int))
    ensures Ordered(r)
  {
    match h
    case Lower(v) => (v, Greater(p.1, v))
    case Upper(v) => (Lesser(p.0, v), v)
  }

  /** The ends after a series of moves. */
  function Moves(p: (int, int), hs: seq<Handle>): (int, int)
    decreases |hs|
  {
    if hs == [] then p else Moves(Move(p, hs[0]), hs[1..])
  }

  /** After any move the ends are ordered, whatever order they started in. */
  lemma {:induction false} MovesOrdered(p: (int, int), hs: seq<Handle>)
    requires hs != [] || Ordered(p)
    ensures Ordered(Moves(p, hs))
    decreases |hs|
  {
    if hs != [] {
      MovesOrdered(Move(p, hs[0]), hs[1..]);
    }
  }

  /** The moved end lands where it was moved, and the other end stays unless it is crossed. */
  lemma MoveLands(p: (int, int), h: Handle)
    requires Ordered(p)
    ensures h.Lower? ==> Move(p, h).0 == h.to && (h.to <= p.1 <==> Move(p, h).1 == p.1)
    ensures h.Upper? ==> Move(p, h).1 == h.to && (h.to >= p.0 <==> Move(p, h).0 == p.0)
  {
  }

  /** Repeating a move changes nothing more. */
  lemma MoveIdempotent(p: (int, int), h: Handle)
    ensures Move(Move(p, h), h) == Move(p, h)
  {
  }

  /** The six objects of a range slider, as a set. */
  ghost function Parts(a: SliderWithInputWidget, b: SliderWithInputWidget): set<object>
  {
    {a, a.slider, a.input, b, b.slider, b.input}
  }

  /** Two slider widgets that share no object. */
  ghost predicate Apart(a: SliderWithInputWidget, b: SliderWithInputWidget)
  {
    && a != b
    && a.slider != b.slider && a.slider != b.input
    && a.input != b.slider && a.input != b.input
  }

  class RangeSliderWidget {
    const minimum: int
    const maximum: int
    var minValue: int
    var maxValue: int
    const minSlider: SliderWithInputWidget
    const maxSlider: SliderWithInputWidget

    ghost predicate Valid()
      reads this, Parts(minSlider, maxSlider)
    {
      && minSlider.Valid() && maxSlider.Valid() && Apart(minSlider, maxSlider)
      && minSlider.minimum == minimum && minSlider.maximum == maximum
      && maxSlider.minimum == minimum && maxSlider.maximum == maximum
    }

    /** `RangeSliderWidget(minimum, maximum, min_value, max_value)`: one slider widget per end. */
    constructor (minimum0: int, maximum0: int, minValue0: int, maxValue0: int)
      ensures Valid() && minValue == minValue0 && maxValue == maxValue0
      ensures minimum == minimum0 && maximum == maximum0
      ensures fresh(Parts(minSlider, maxSlider))
    {
      minimum, maximum := minimum0, maximum0;
      minValue, maxValue := minValue0, maxValue0;
      minSlider := new SliderWithInputWidget(minimum0, maximum0, minValue0, "", "");
      maxSlider := new SliderWithInputWidget(minimum0, maximum0, maxValue0, "", "");
    }

    /**
     * `_on_min_changed`: a new lower end above the upper end drags the
     * upper end (and its slider, silently) along; `range_changed` carries
     * the pair, which is ordered.
     */
    method OnMinChanged(v: int) returns (pair: (int, int))
      requires Valid()
      modifies this`minValue, this`maxValue, maxSlider, maxSlider.slider, maxSlider.input
      ensures Valid()
      ensures (minValue, maxValue) == Move((old(minValue), old(maxValue)), Lower(v)) == pair
      ensures v > old(maxValue) && minimum <= v <= maximum ==> maxSlider.value == v
      ensures v <= old(maxValue) ==> maxSlider.value == old(maxSlider.value)
    {
      if v > maxValue {
        maxValue := v;
        var _ := maxSlider.SetValue(v);
      }
      minValue := v;
      pair := (minValue, maxValue);
    }

    /** `_on_max_changed`: the same for the upper end. */
    method OnMaxChanged(v: int) returns (pair: (int, int))
      requires Valid()
      modifies this`minValue, this`maxValue, minSlider, minSlider.slider, minSlider.input
      ensures Valid()
      ensures (minValue, maxValue) == Move((old(minValue), old(maxValue)), Upper(v)) == pair
      ensures v < old(minValue) && minimum <= v <= maximum ==> minSlider.value == v
      ensures v >= old(minValue) ==> minSlider.value == old(minSlider.value)
    {
      if v < minValue {
        minValue := v;
        var _ := minSlider.SetValue(v);
      }
      maxValue := v;
      pair := (minValue, maxValue);
    }

    /**
     * `_on_min_changed` as written: `value_changed` carries a float, so a
     * lower end above the upper end and within the limits reaches the upper
     * slider's `set_value` as a float, which raises `TypeError` before the
     * lower end is stored and before `range_changed` fires; the upper end
     * has moved already, and the upper slider keeps its guard set.
     */
    method OnMinChangedAsWritten(v: int) returns (pair: Option<(int, int)>, typeError: bool)
      requires Valid()
      modifies this`minValue, this`maxValue, maxSlider, maxSlider.slider, maxSlider.input
      ensures typeError <==> v > old(maxValue) && minimum <= v <= maximum
      ensures typeError ==> pair == None && minValue == old(minValue) && maxValue == v
                            && maxSlider.updating && maxSlider.value == v
      ensures !typeError ==> Valid() && pair == Some((minValue, maxValue))
                             && (minValue, maxValue) == Move((old(minValue), old(maxValue)), Lower(v))
    {
      typeError := false;
      if v > maxValue {
        maxValue := v;
        typeError := maxSlider.SetValueFloat(v);
        if typeError {
          return None, true;
        }
      }
      minValue := v;
      pair := Some((minValue, maxValue));
    }

    /** `_on_max_changed` as written: the same for an upper end below the lower end. */
    method OnMaxChangedAsWritten(v: int) returns (pair: Option<(int, int)>, typeError: bool)
      requires Valid()
      modifies this`minValue, this`maxValue, minSlider, minSlider.slider, minSlider.input
      ensures typeError <==> v < old(minValue) && minimum <= v <= maximum
      ensures typeError ==> pair == None && maxValue == old(maxValue) && minValue == v
                            && minSlider.updating && minSlider.value == v
      ensures !typeError ==> Valid() && pair == Some((minValue, maxValue))
                             && (minValue, maxValue) == Move((old(minValue), old(maxValue)), Upper(v))
    {
      typeError := false;
      if v < minValue {
        minValue := v;
        typeError := minSlider.SetValueFloat(v);
        if typeError {
          return None, true;
        }
      }
      maxValue := v;
      pair := Some((minValue, maxValue));
    }

    /**
     * The user moves the lower slider: when it moves, `range_changed`
     * fires once with an ordered pair whose lower end is the slider's.
     */
    method DragMin(v: int) returns (ranges: seq<(int, int)>)
      requires Valid()
      modifies this`minValue, this`maxValue, Parts(minSlider, maxSlider)
      ensures Valid()
      ensures |ranges| <= 1
      ensures ranges != [] ==> minValue == minSlider.value && ranges == [(minValue, maxValue)]
      ensures ranges != [] ==> (minValue, maxValue) == Move((old(minValue), old(maxValue)), Lower(minValue))
      ensures ranges == [] ==> minValue == old(minValue) && maxValue == old(maxValue)
    {
      var emitted := minSlider.SlideTo(v);
      ranges := [];
      if emitted != [] {
        var pair := OnMinChanged(emitted[0]);
        ranges := [pair];
      }
    }

    /** The user moves the upper slider. */
    method DragMax(v: int) returns (ranges: seq<(int, int)>)
      requires Valid()
      modifies this`minValue, this`maxValue, Parts(minSlider, maxSlider)
      ensures Valid()
      ensures |ranges| <= 1
      ensures ranges != [] ==> maxValue == maxSlider.value && ranges == [(minValue, maxValue)]
      ensures ranges != [] ==> (minValue, maxValue) == Move((old(minValue), old(maxValue)), Upper(maxValue))
      ensures ranges == [] ==> minValue == old(minValue) && maxValue == old(maxValue)
    {
      var emitted := maxSlider.SlideTo(v);
      ranges := [];
      if emitted != [] {
        var pair := OnMaxChanged(emitted[0]);
        ranges := [pair];
      }
    }

    /**
     * `set_range`: both ends are taken as given, in whatever order, and
     * each slider is set (silently, and only if within the limits).
     */
    method SetRange(lo: int, hi: int)
      requires Valid()
      modifies this`minValue, this`maxValue, Parts(minSlider, maxSlider)
      ensures Valid() && minValue == lo && maxValue == hi
      ensures minimum <= lo <= maximum ==> minSlider.value == lo
      ensures minimum <= hi <= maximum ==> maxSlider.value == hi
    {
      minValue, maxValue := lo, hi;
      var _ := minSlider.SetValue(lo);
      var _ := maxSlider.SetValue(hi);
    }

    method GetRange() returns (lo: int, hi: int)
      ensures lo == minValue && hi == maxValue
    {
      lo, hi := minValue, maxValue;
    }
  }

  /**
   * As written, once the slider of a widget on 0..100 at 50 is moved to 60,
   * neither control reports a change again: the number then typed in the
   * spin box does not reach the slider.
   */
  method SliderGoesSilent() returns (slid: seq<int>, typed: seq<int>, sliderAt: int)
    ensures slid == [] && typed == [] && sliderAt == 60
  {
    var w := new SliderWithInputWidget(0, 100, 50, "", "");
    var failed;
    slid, failed := w.SlideToAsWritten(60);
    var _ := w.input.SetValue(70);
    typed := w.OnInputChanged(w.input.value);
    sliderAt := w.slider.value;
  }

  /** As intended, the same moves each fire `value_changed` once and the controls follow each other. */
  method SliderFollowsIntended() returns (slid: seq<int>, typed: seq<int>, sliderAt: int)
    ensures slid == [60] && typed == [70] && sliderAt == 70
  {
    var w := new SliderWithInputWidget(0, 100, 50, "", "");
    slid := w.SlideTo(60);
    typed := w.TypeValue(70);
    sliderAt := w.slider.value;
  }

  /**
   * As written, typing 90 as the lower end of a range 20..80 on 0..100
   * moves the upper end to 90 but never stores the lower end or reports
   * the range.
   */
  method RangeCrossingAsWritten() returns (reported: Option<(int, int)>, lower: int, upper: int)
    ensures reported == None && lower == 20 && upper == 90
  {
    var r := new RangeSliderWidget(0, 100, 20, 80);
    var failed;
    reported, failed := r.OnMinChangedAsWritten(90);
    lower, upper := r.minValue, r.maxValue;
  }

  /** As intended, the same lower end pushes the upper end along and the range 90..90 is reported. */
  method RangeCrossingIntended() returns (reported: (int, int), lower: int, upper: int)
    ensures reported == (90, 90) && lower == 90 && upper == 90
  {
    var r := new RangeSliderWidget(0, 100, 20, 80);
    reported := r.OnMinChanged(90);
    lower, upper := r.minValue, r.maxValue;
  }

  /** `SimpleSliderInput`: a slider whose label shows its position. */
  class SimpleSliderInput {
    const slider: RangeControl
    /** The number the value label shows. */
    var shown: int

    ghost predicate Valid()
      reads this, slider
    {
      slider.Valid()
    }

    /**
     * `SimpleSliderInput(minimum, maximum, value)`: the slider clamps the
     * value, while the label shows it as given.
     */
    constructor (minimum: int, maximum: int, value: int)
      ensures Valid() && shown == value && fresh(slider)
      ensures slider.lo == minimum && slider.hi == Greater(minimum, maximum)
      ensures slider.value == Clamp(value, minimum, Greater(minimum, maximum))
    {
      slider := new RangeControl();
      shown := value;
      new;
      var _ := slider.SetRange(minimum, maximum);
      var _ := slider.SetValue(value);
    }

    /**
     * `set_value`, or the user moving the slider: when the position
     * changes, the label shows it and `value_changed` carries it.
     */
    method SetValue(v: int) returns (emitted: seq<int>)
      requires Valid()
      modifies this`shown, slider`value
      ensures Valid() && slider.value == Clamp(v, slider.lo, slider.hi)
      ensures slider.value != old(slider.value) ==> shown == slider.value && emitted == [slider.value]
      ensures slider.value == old(slider.value) ==> shown == old(shown) && emitted == []
    {
      emitted := [];
      var moved := slider.SetValue(v);
      if moved {
        shown := slider.value;
        emitted := [slider.value];
      }
    }

    method GetValue() returns (v: int)
      requires Valid()
      ensures v == slider.value
    {
      v := slider.value;
    }
  }
}
