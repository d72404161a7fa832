/**
 * Quick settings panel: a collapsible panel of named settings, each shown
 * by a control (a toggle switch, a combo box of choices, a spin box or a
 * slider), with the current values kept in a dictionary that the controls
 * write through `_on_setting_changed`; and a compact panel that only lays
 * out the widgets it is given.
 *
 * Values are Python objects; the model keeps the kinds the panel converts
 * between (booleans, integers, strings and `None`). A control's change
 * signal is a returned list of `setting_changed` emissions.
 */
module QuickSettings {
  import opened Common
  import opened PyDict
  import opened QtRange

  /** A setting's value. */
  datatype Value = BoolV(b: bool) | IntV(i: int) | StrV(s: string) | NoneV

  /** Python `bool(v)`. */
  function Truthy(v: Value): bool {
    match v
    case BoolV(b) => b
    case IntV(i) => i != 0
    case StrV(s) => s != ""
    case NoneV => false
  }

  /** Python `str(v)`. */
  function Str(v: Value): string {
    match v
    case BoolV(b) => if b then "True" else "False"
    case IntV(i) => IntToStr(i)
    case StrV(s) => s
    case NoneV => "None"
  }

  predicate AllDigits(s: string) {
    forall k :: 0 <= k < |s| ==> IsDigit(s[k])
  }

  /** Python `int(v)`, `None` where it raises; a string must be digits with an optional leading minus. */
  function ToInt(v: Value): (r: Option<int>)
    ensures v.IntV? ==> r == Some(v.i)
    ensures v.NoneV? ==> r == None
  {
    match v
    case BoolV(b) => Some(if b then 1 else 0)
    case IntV(i) => Some(i)
    case StrV(s) =>
      if s != "" && AllDigits(s) then Some(DigitsValue(s) as int)
      else if |s| >= 2 && s[0] == '-' && AllDigits(s[1..]) then Some(-(DigitsValue(s[1..]) as int))
      else None
    case NoneV => None
  }

  /** `int(str(n))` gives `n` back. */
  lemma ToIntOfStr(n: int)
    ensures ToInt(StrV(IntToStr(n))) == Some(n)
  {
    NatToStrRoundTrip(if n < 0 then -n else n);
    if n < 0 {
      assert IntToStr(n)[1..] == NatToStr(-n);
    }
  }

  /**
   * A setting's control. A spin box and a slider behave alike here: a
   * value kept inside `[lo, hi]`. A combo box's `index` is -1 when nothing
   * is current.
   */
  datatype Control =
    | Toggle(checked: bool)
    | Choice(items: seq<string>, index: int)
    | Range(lo: int, hi: int, value: int)

  predicate WellFormed(c: Control) {
    match c
    case Toggle(_) => true
    case Choice(items, index) => -1 <= index < |items|
    case Range(lo, hi, value) => lo <= value <= hi
  }

  /** A control in a state Qt allows. */
  type Widget = c: Control | WellFormed(c) witness Toggle(false)

  /** `currentText()` of a combo box: empty when nothing is current. */
  function CurrentText(items: seq<string>, index: int): string {
    if 0 <= index < |items| then items[index] else ""
  }

  /** What the control reports to `_on_setting_changed` when it changes. */
  function Reported(c: Control): Value {
    match c
    case Toggle(b) => BoolV(b)
    case Choice(items, index) => StrV(CurrentText(items, index))
    case Range(_, _, v) => IntV(v)
  }

  /** `findText`: the first item with that text, or -1. */
  function FindText(items: seq<string>, t: string): (i: int)
    ensures -1 <= i < |items|
    ensures i == -1 <==> t !in items
    ensures i >= 0 ==> items[i] == t && forall k :: 0 <= k < i ==> items[k] != t
  {
    if t in items then IndexOf(items, t) else -1
  }

  /**
   * What `set_setting` does to a control: a toggle takes `bool(value)`, a
   * combo box moves to the item reading `str(value)` when there is one, a
   * spin box or slider takes `int(value)` clamped; `None` when `int`
   * raises.
   */
  function Assign(c: Widget, v: Value): (r: Option<Widget>)
    ensures r.None? <==> c.Range? && ToInt(v).None?
  {
    match c
    case Toggle(_) => Option<Widget>.Some(Toggle(Truthy(v)))
    case Choice(items, index) =>
      var i := FindText(items, Str(v));
      if i >= 0 then Option<Widget>.Some(Choice(items, i)) else Some(c)
    case Range(lo, hi, _) =>
      match ToInt(v)
      case None => None
      case Some(n) => Option<Widget>.Some(Range(lo, hi, Clamp(n, lo, hi)))
  }

  /** What `reset_settings` does to a control: off, the first item, or 0 clamped. */
  function ResetControl(c: Widget): Widget
  {
    match c
    case Toggle(_) => Toggle(false)
    case Choice(items, _) => Choice(items, if items == [] then -1 else 0)
    case Range(lo, hi, _) => Range(lo, hi, Clamp(0, lo, hi))
  }

  /** `d[k] = v` on a dictionary. */
  function Record<T>(d: Dict<T>, k: string, v: T): (r: Dict<T>)
    ensures r == Put(d, k, v)
  {
    PutIsDict(d, k, v);
    Put(d, k, v)
  }

  /** A `setting_changed` emission. */
  datatype Change = Change(name: string, value: Value)

  /** Whether moving a control from `c` to `d` makes it signal: what it reports must differ. */
  function Signal(name: string, c: Control, d: Control): (r: seq<Change>)
    ensures r == [] <==> Reported(c) == Reported(d)
  {
    if Reported(c) != Reported(d) then [Change(name, Reported(d))] else []
  }

  // ---------------------------------------------------------------------
  // The settings and their controls, as values

  /** The `_settings` and `_setting_widgets` dictionaries. */
  datatype Store = Store(settings: Dict<Value>, controls: Dict<Widget>)

  /** Every control has a setting. */
  predicate Consistent(s: Store) {
    forall k :: k in Names(s.controls) ==> k in Names(s.settings)
  }

  /** The result of `set_setting` or `set_settings`. */
  datatype Outcome = Outcome(store: Store, changes: seq<Change>, raised: bool)

  /**
   * `set_setting(name, value)`: an unknown name changes nothing; otherwise
   * the control takes the value, signals if what it reports changed, and
   * the raw value is stored last; a failed `int` raises before anything
   * changes.
   */
  function SetOne(s: Store, name: string, v: Value): Outcome
  {
    match Get(s.controls, name)
    case None => Outcome(s, [], false)
    case Some(c) =>
      match Assign(c, v)
      case None => Outcome(s, [], true)
      case Some(d) =>
        var sig := Signal(name, c, d);
        var settings := if sig != [] then Record(s.settings, name, Reported(d)) else s.settings;
        var st := Store(Record(settings, name, v), Record(s.controls, name, d));
        Outcome(st, sig, false)
  }

  /** `set_settings`: one `set_setting` per entry, in order, stopping at the first that raises. */
  function SetMany(s: Store, batch: seq<Named<Value>>): Outcome
  {
    if batch == [] then Outcome(s, [], false)
    else
      var o := SetMany(s, batch[..|batch| - 1]);
      if o.raised then o
      else
        var e := batch[|batch| - 1];
        var p := SetOne(o.store, e.name, e.item);
        Outcome(p.store, o.changes + p.changes, p.raised)
  }

  /** `set_setting` adds no setting and no control, and keeps every control's setting. */
  lemma SetOneKeys(s: Store, name: string, v: Value)
    ensures forall k :: k in Names(SetOne(s, name, v).store.controls) <==> k in Names(s.controls)
    ensures forall k :: k in Names(s.settings) ==> k in Names(SetOne(s, name, v).store.settings)
    ensures Consistent(s) ==> Consistent(SetOne(s, name, v).store)
  {
  }

  /** `set_settings` adds no control and keeps every control's setting. */
  lemma {:induction false} SetManyKeys(s: Store, batch: seq<Named<Value>>)
    ensures forall k :: k in Names(SetMany(s, batch).store.controls) <==> k in Names(s.controls)
    ensures Consistent(s) ==> Consistent(SetMany(s, batch).store)
  {
    if batch != [] {
      var o := SetMany(s, batch[..|batch| - 1]);
      SetManyKeys(s, batch[..|batch| - 1]);
      if !o.raised {
        var e := batch[|batch| - 1];
        SetOneKeys(o.store, e.name, e.item);
      }
    }
  }

  /** A known name ends with the value given; every other setting is untouched. */
  lemma SetOneStores(s: Store, name: string, v: Value)
    ensures name in Names(s.controls) && !SetOne(s, name, v).raised ==>
              Get(SetOne(s, name, v).store.settings, name) == Some(v)
    ensures forall k :: k != name ==> Get(SetOne(s, name, v).store.settings, k) == Get(s.settings, k)
    ensures name !in Names(s.controls) ==> SetOne(s, name, v) == Outcome(s, [], false)
  {
  }

  /** `set_settings` never adds a setting: names that were never added are ignored. */
  lemma {:induction false} SetManyIgnoresUnknown(s: Store, batch: seq<Named<Value>>, k: string)
    requires k !in Names(s.controls)
    ensures Get(SetMany(s, batch).store.settings, k) == Get(s.settings, k)
  {
    if batch != [] {
      var o := SetMany(s, batch[..|batch| - 1]);
      SetManyIgnoresUnknown(s, batch[..|batch| - 1], k);
      SetManyKeys(s, batch[..|batch| - 1]);
      if !o.raised {
        var e := batch[|batch| - 1];
        SetOneStores(o.store, e.name, e.item);
      }
    }
  }

  /** One entry of `set_settings`, as the loop takes it. */
  lemma SetManyStep(s: Store, batch: seq<Named<Value>>, i: nat)
    requires i < |batch| && !SetMany(s, batch[..i]).raised
    ensures SetMany(s, batch[..i + 1]) ==
            var o := SetMany(s, batch[..i]);
            var p := SetOne(o.store, batch[i].name, batch[i].item);
            Outcome(p.store, o.changes + p.changes, p.raised)
  {
    assert batch[..i + 1][..i] == batch[..i];
  }

  /** Once an entry raises, the rest of the batch is not applied. */
  lemma SetManyStopsAtRaise(s: Store, batch: seq<Named<Value>>, i: nat)
    requires i <= |batch| && SetMany(s, batch[..i]).raised
    ensures SetMany(s, batch) == SetMany(s, batch[..i])
    decreases |batch| - i
  {
    if i < |batch| {
      assert batch[..i + 1][..i] == batch[..i];
      SetManyStopsAtRaise(s, batch, i + 1);
    } else {
      assert batch[..i] == batch;
    }
  }

  /** The controls after `reset_settings`: each one reset, in place. */
  function ResetAll(cs: seq<Named<Widget>>): (r: seq<Named<Widget>>)
    ensures |r| == |cs|
    ensures forall i :: 0 <= i < |cs| ==> r[i] == Named(cs[i].name, ResetControl(cs[i].item))
  {
    seq(|cs|, i requires 0 <= i < |cs| => Named(cs[i].name, ResetControl(cs[i].item)))
  }

  /** The settings and emissions after resetting the controls `cs` in order: a control that moved writes what it reports. */
  function ResetOutcome(settings: seq<Named<Value>>, cs: seq<Named<Widget>>): (seq<Named<Value>>, seq<Change>)
  {
    if cs == [] then (settings, [])
    else
      var n := |cs| - 1;
      var p := ResetOutcome(settings, cs[..n]);
      var e := cs[n];
      var sig := Signal(e.name, e.item, ResetControl(e.item));
      if sig != [] then (Put(p.0, e.name, Reported(ResetControl(e.item))), p.1 + sig)
      else (p.0, p.1 + sig)
  }

  /**
   * After a reset, a setting whose control moved holds what the control
   * now reports; every other setting keeps its value.
   */
  lemma {:induction false} ResetOutcomeFollow(settings: seq<Named<Value>>, cs: seq<Named<Widget>>, k: string)
    requires IsDict(cs)
    ensures Get(ResetOutcome(settings, cs).0, k) ==
            match Get(cs, k)
            case Some(c) =>
              if Reported(c) != Reported(ResetControl(c)) then Some(Reported(ResetControl(c))) else Get(settings, k)
            case None => Get(settings, k)
  {
    if cs != [] {
      var n := |cs| - 1;
      DictInit(cs);
      ResetOutcomeFollow(settings, cs[..n], k);
      GetInit(cs, k);
    }
  }

  /** Every emission of a reset names a control and carries what it reports after the reset. */
  lemma {:induction false} ResetChangesReported(settings: seq<Named<Value>>, cs: seq<Named<Widget>>)
    ensures forall ch :: ch in ResetOutcome(settings, cs).1 ==>
              exists i :: 0 <= i < |cs| && ch == Change(cs[i].name, Reported(ResetControl(cs[i].item)))
  {
    if cs != [] {
      var n := |cs| - 1;
      ResetChangesReported(settings, cs[..n]);
      forall ch | ch in ResetOutcome(settings, cs).1
        ensures exists i :: 0 <= i < |cs| && ch == Change(cs[i].name, Reported(ResetControl(cs[i].item)))
      {
        if ch in ResetOutcome(settings, cs[..n]).1 {
          var i :| 0 <= i < n && ch == Change(cs[..n][i].name, Reported(ResetControl(cs[..n][i].item)));
          assert cs[..n][i] == cs[i];
        } else {
          assert ch == Change(cs[n].name, Reported(ResetControl(cs[n].item)));
        }
      }
    }
  }

  // ---------------------------------------------------------------------
  // Adding settings

  /** A combo box built from `choices` with `setCurrentIndex(default_index)`: out of range means no current item. */
  function ChoiceControl(choices: seq<Value>, defaultIndex: int): (c: Widget)
    ensures c.Choice? && |c.items| == |choices|
  {
    var items := seq(|choices|, i requires 0 <= i < |choices| => Str(choices[i]));
    Choice(items, if 0 <= defaultIndex < |items| then defaultIndex else -1)
  }

  /** A spin box or slider after `setRange(lo, hi)` and `setValue(default)`; a maximum below the minimum is raised to it. */
  function RangeBox(v: int, lo: int, hi: int): (c: Widget)
    ensures c.Range?
    ensures c.lo == lo && c.hi == Greater(lo, hi)
    ensures lo <= v <= hi ==> c.value == v
  {
    Range(lo, Greater(lo, hi), Clamp(v, lo, Greater(lo, hi)))
  }

  // ---------------------------------------------------------------------
  // The panel

  class QuickSettingsPanel {
    const title: string
    const collapsible: bool
    var expanded: bool
    /** The content area and the Apply/Reset buttons, shown while expanded. */
    var contentShown: bool
    var settings: Dict<Value>
    var controls: Dict<Widget>

    predicate Valid()
      reads this
    {
      Consistent(Store(settings, controls)) && contentShown == expanded
    }

    constructor (title: string, collapsible: bool)
      ensures Valid()
      ensures this.title == title && this.collapsible == collapsible
      ensures expanded && settings == [] && controls == []
    {
      this.title := title;
      this.collapsible := collapsible;
      expanded := true;
      contentShown := true;
      settings := [];
      controls := [];
    }

    /** `toggle_panel`: a panel that cannot collapse ignores it; otherwise it flips and reports the new state. */
    method TogglePanel() returns (emitted: Option<bool>)
      requires Valid()
      modifies this`expanded, this`contentShown
      ensures Valid()
      ensures !collapsible ==> expanded == old(expanded) && emitted == None
      ensures collapsible ==> expanded == !old(expanded) && emitted == Some(expanded)
    {
      if !collapsible {
        return None;
      }
      expanded := !expanded;
      contentShown := expanded;
      emitted := Some(expanded);
    }

    /** Records a setting and its control under `name`; a name already present keeps its place. */
    method Register(name: string, v: Value, c: Widget)
      requires Valid()
      modifies this`settings, this`controls
      ensures Valid()
      ensures settings == Put(old(settings), name, v) && controls == Put(old(controls), name, c)
    {
      settings := Record(settings, name, v);
      controls := Record(controls, name, c);
    }

    /** `add_toggle_setting`: the setting records its default. */
    method AddToggleSetting(name: string, defaultValue: bool)
      requires Valid()
      modifies this`settings, this`controls
      ensures Valid()
      ensures Get(settings, name) == Some(BoolV(defaultValue)) && Get(controls, name) == Option<Widget>.Some(Toggle(defaultValue))
      ensures forall k :: k != name ==> Get(settings, k) == Get(old(settings), k) && Get(controls, k) == Get(old(controls), k)
    {
      Register(name, BoolV(defaultValue), Toggle(defaultValue));
    }

    /**
     * `add_choice_setting`: the setting records `choices[default_index]`,
     * or `None` without choices; an index Python cannot take raises after
     * the combo box is built and before anything is recorded.
     */
    method AddChoiceSetting(name: string, choices: seq<Value>, defaultIndex: int) returns (raised: bool)
      requires Valid()
      modifies this`settings, this`controls
      ensures Valid()
      ensures raised <==> choices != [] && !InRange(|choices|, defaultIndex)
      ensures raised ==> settings == old(settings) && controls == old(controls)
      ensures !raised ==> Get(settings, name) == Some(if choices == [] then NoneV else PyIndex(choices, defaultIndex))
      ensures !raised ==> Get(controls, name) == Some(ChoiceControl(choices, defaultIndex))
      ensures forall k :: k != name ==> Get(settings, k) == Get(old(settings), k) && Get(controls, k) == Get(old(controls), k)
    {
      if choices != [] && !InRange(|choices|, defaultIndex) {
        return true;
      }
      raised := false;
      var v := if choices == [] then NoneV else PyIndex(choices, defaultIndex);
      Register(name, v, ChoiceControl(choices, defaultIndex));
    }

    /** `add_number_setting`: the setting records the default as given, though the spin box clamps it. */
    method AddNumberSetting(name: string, defaultValue: int, minimum: int, maximum: int)
      requires Valid()
      modifies this`settings, this`controls
      ensures Valid()
      ensures Get(settings, name) == Some(IntV(defaultValue))
      ensures Get(controls, name) == Some(RangeBox(defaultValue, minimum, maximum))
      ensures forall k :: k != name ==> Get(settings, k) == Get(old(settings), k) && Get(controls, k) == Get(old(controls), k)
    {
      Register(name, IntV(defaultValue), RangeBox(defaultValue, minimum, maximum));
    }

    /** `add_slider_setting`: as a number setting, with a slider. */
    method AddSliderSetting(name: string, defaultValue: int, minimum: int, maximum: int)
      requires Valid()
      modifies this`settings, this`controls
      ensures Valid()
      ensures Get(settings, name) == Some(IntV(defaultValue))
      ensures Get(controls, name) == Some(RangeBox(defaultValue, minimum, maximum))
      ensures forall k :: k != name ==> Get(settings, k) == Get(old(settings), k) && Get(controls, k) == Get(old(controls), k)
    {
      Register(name, IntV(defaultValue), RangeBox(defaultValue, minimum, maximum));
    }

    /** `_on_setting_changed`: the new value is recorded under the name and reported. */
    method OnSettingChanged(name: string, v: Value) returns (emitted: Change)
      requires Valid() && name in Names(controls)
      modifies this`settings
      ensures Valid()
      ensures Get(settings, name) == Some(v) && Names(settings) == Names(old(settings))
      ensures forall k :: k != name ==> Get(settings, k) == Get(old(settings), k)
      ensures emitted == Change(name, v)
    {
      settings := Record(settings, name, v);
      emitted := Change(name, v);
    }

    /** `get_setting`: the value recorded under the name, `None` for a name never added. */
    function GetSetting(name: string): (r: Option<Value>)
      reads this
      ensures r.Some? <==> name in Names(settings)
      ensures forall i :: 0 <= i < |settings| && settings[i].name == name ==> r == Some(settings[i].item)
    {
      GetAtAll(settings, name);
      Get(settings, name)
    }

    /** `apply_settings` emits, and `get_settings` returns, a copy of the settings: the same names with the same values. */
    function ApplySettings(): (m: map<string, Value>)
      reads this
      ensures forall k :: k in m <==> k in Names(settings)
      ensures forall k :: k in m ==> GetSetting(k) == Some(m[k])
    {
      ToMap(settings)
    }

    /** `set_setting`. */
    method SetSetting(name: string, v: Value) returns (changes: seq<Change>, raised: bool)
      requires Valid()
      modifies this`settings, this`controls
      ensures Valid()
      ensures Outcome(Store(settings, controls), changes, raised) == SetOne(Store(old(settings), old(controls)), name, v)
    {
      var s := Store(settings, controls);
      SetOneKeys(s, name, v);
      var o := SetOne(s, name, v);
      settings, controls := o.store.settings, o.store.controls;
      changes, raised := o.changes, o.raised;
    }

    /** `set_settings`: the entries one by one, in order; an entry that raises ends the call. */
    method SetSettings(batch: seq<Named<Value>>) returns (changes: seq<Change>, raised: bool)
      requires Valid()
      modifies this`settings, this`controls
      ensures Valid()
      ensures Outcome(Store(settings, controls), changes, raised) == SetMany(Store(old(settings), old(controls)), batch)
    {
      ghost var s0 := Store(settings, controls);
      changes, raised := [], false;
      var i := 0;
      while i < |batch| && !raised
        invariant 0 <= i <= |batch| && Valid()
        invariant Outcome(Store(settings, controls), changes, raised) == SetMany(s0, batch[..i])
      {
        SetManyStep(s0, batch, i);
        var ch, r := SetSetting(batch[i].name, batch[i].item);
        changes, raised := changes + ch, r;
        i := i + 1;
      }
      if raised {
        SetManyStopsAtRaise(s0, batch, i);
      } else {
        assert batch[..i] == batch;
      }
    }

    /** `reset_settings`: each control, in order, goes off, to its first item, or to 0 clamped, and a control that moved records and reports its new value. */
    method ResetSettings() returns (changes: seq<Change>)
      requires Valid()
      modifies this`settings, this`controls
      ensures Valid()
      ensures controls == ResetAll(old(controls))
      ensures settings == ResetOutcome(old(settings), old(controls)).0
      ensures changes == ResetOutcome(old(settings), old(controls)).1
    {
      ghost var s0, c0 := settings, controls;
      changes := [];
      var i := 0;
      while i < |controls|
        invariant 0 <= i <= |controls| == |c0|
        invariant Valid()
        invariant forall j :: 0 <= j < i ==> controls[j] == Named(c0[j].name, ResetControl(c0[j].item))
        invariant forall j :: i <= j < |c0| ==> controls[j] == c0[j]
        invariant (settings, changes) == ResetOutcome(s0, c0[..i])
      {
        ResetOne(s0, c0, i);
        var sig := ResetEntry(i);
        changes := changes + sig;
        i := i + 1;
      }
      assert c0[..i] == c0;
      assert controls == ResetAll(c0);
    }

    /** Resets the control at `i`, recording and returning its emission when it moved. */
    method ResetEntry(i: nat) returns (sig: seq<Change>)
      requires Valid() && i < |controls|
      modifies this`settings, this`controls
      ensures Valid()
      ensures |controls| == |old(controls)|
      ensures controls[i] == Named(old(controls)[i].name, ResetControl(old(controls)[i].item))
      ensures forall j :: 0 <= j < |controls| && j != i ==> controls[j] == old(controls)[j]
      ensures sig == Signal(old(controls)[i].name, old(controls)[i].item, ResetControl(old(controls)[i].item))
      ensures settings == if sig != [] then Put(old(settings), old(controls)[i].name, Reported(ResetControl(old(controls)[i].item)))
                          else old(settings)
    {
      var e := controls[i];
      var d := ResetControl(e.item);
      ReplaceKeepsNames(controls, i, d);
      controls := controls[i := Named(e.name, d)];
      sig := Signal(e.name, e.item, d);
      if sig != [] {
        settings := Record(settings, e.name, Reported(d));
      }
    }
  }

  /** Every entry of a dictionary with a given key holds what a lookup finds. */
  lemma GetAtAll<T>(d: seq<Named<T>>, k: string)
    requires IsDict(d)
    ensures forall i :: 0 <= i < |d| && d[i].name == k ==> Get(d, k) == Some(d[i].item)
  {
    forall i | 0 <= i < |d| && d[i].name == k
      ensures Get(d, k) == Some(d[i].item)
    {
      GetAt(d, i);
    }
  }

  /** One step of the reset loop. */
  lemma ResetOne(s0: seq<Named<Value>>, c0: seq<Named<Widget>>, i: nat)
    requires i < |c0|
    ensures ResetOutcome(s0, c0[..i + 1]) ==
            var p := ResetOutcome(s0, c0[..i]);
            var sig := Signal(c0[i].name, c0[i].item, ResetControl(c0[i].item));
            if sig != [] then (Put(p.0, c0[i].name, Reported(ResetControl(c0[i].item))), p.1 + sig)
            else (p.0, p.1 + sig)
  {
    assert c0[..i + 1][..i] == c0[..i];
  }

  /** The compact panel: widgets laid out in the order given, and recorded by name. */
  class CompactSettingsPanel {
    /** The laid-out widgets, by identity. */
    var laidOut: seq<nat>
    var settings: Dict<nat>

    constructor ()
      ensures laidOut == [] && settings == []
    {
      laidOut := [];
      settings := [];
    }

    /** `add_setting`: the widget is laid out after the others and recorded under the name. */
    method AddSetting(name: string, widget: nat)
      modifies this
      ensures laidOut == old(laidOut) + [widget]
      ensures Get(settings, name) == Some(widget)
      ensures forall k :: k != name ==> Get(settings, k) == Get(old(settings), k)
    {
      laidOut := laidOut + [widget];
      settings := Record(settings, name, widget);
    }
  }
}
