/**
 * The integer range controls the widgets are built from (`QSlider`,
 * `QSpinBox`, `QProgressBar`): a value kept inside a range, which reports
 * whether a change of value or range actually moved the value, since
 * only then does the control emit `valueChanged`.
 */
module QtRange {

  import opened Common

  /** `v` brought into `[lo, hi]`. */
  function Clamp(v: int, lo: int, hi: int): (r: int)
    requires lo <= hi
    ensures lo <= r <= hi
    ensures lo <= v <= hi ==> r == v
    ensures v < lo ==> r == lo
    ensures v > hi ==> r == hi
  {
    if v < lo then lo else if v > hi then hi else v
  }

  class RangeControl {
    var lo: int
    var hi: int
    var value: int

    ghost predicate Valid()
      reads this
    {
      lo <= value <= hi
    }

    /** A new control: Qt's default range 0 to 99, at 0. */
    constructor ()
      ensures Valid() && lo == 0 && hi == 99 && value == 0
    {
      lo, hi, value := 0, 99, 0;
    }

    /** `setValue`: the value is clamped into the range; `changed` tells whether it moved. */
    method SetValue(v: int) returns (changed: bool)
      requires Valid()
      modifies this`value
      ensures Valid() && value == Clamp(v, lo, hi)
      ensures changed <==> value != old(value)
    {
      var old_ := value;
      value := Clamp(v, lo, hi);
      changed := value != old_;
    }

    /**
     * `setMinimum`: the maximum is raised to the new minimum if below it,
     * and the value is clamped into the new range.
     */
    method SetMinimum(m: int) returns (changed: bool)
      requires Valid()
      modifies this
      ensures Valid() && lo == m && hi == Greater(old(hi), m)
      ensures value == Clamp(old(value), lo, hi)
      ensures changed <==> value != old(value)
    {
      changed := SetRange(m, Greater(hi, m));
    }

    /**
     * `setMaximum`: the minimum is lowered to the new maximum if above it,
     * and the value is clamped into the new range.
     */
    method SetMaximum(m: int) returns (changed: bool)
      requires Valid()
      modifies this
      ensures Valid() && lo == Lesser(old(lo), m) && hi == m
      ensures value == Clamp(old(value), lo, hi)
      ensures changed <==> value != old(value)
    {
      changed := SetRange(Lesser(lo, m), m);
    }

    /** `setRange`: a maximum below the minimum is raised to it; the value is clamped. */
    method SetRange(a: int, b: int) returns (changed: bool)
      modifies this
      ensures Valid() && lo == a && hi == Greater(a, b)
      ensures value == Clamp(old(value), lo, hi)
      ensures changed <==> value != old(value)
    {
      var old_ := value;
      lo, hi := a, Greater(a, b);
      value := Clamp(old_, lo, hi);
      changed := value != old_;
    }
  }
}
