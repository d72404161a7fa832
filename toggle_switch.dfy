/**
 * The toggle switch (`ToggleSwitchWidget`, and `IconToggleSwitch`, which
 * only draws an icon on the thumb), the switch between an "off" and an
 * "on" caption (`LabeledToggleSwitch`), and a named group of switches
 * (`ToggleSwitchGroup`).
 *
 * The thumb slides between two ends, 0 (off) and 1 (on); its animation is
 * taken to have finished, so the thumb rests at the end the state picks.
 * A signal is modelled by the sequence of values it carried during a call.
 */
module ToggleSwitch {
  import opened Common
  import opened PyDict

  /** Width of the track alone. */
  const SwitchWidth := 50
  const SwitchHeight := 24
  /** Room the caption adds to the widget's width. */
  const CaptionWidth := 100

  /** The end the thumb rests at: 1 when on, 0 when off. */
  function ThumbEnd(checked: bool): (t: int)
    ensures t == 0 || t == 1
    ensures t == 1 <==> checked
  {
    if checked then 1 else 0
  }

  /** `_setup_ui`: the widget is as wide as the track, plus the caption's room when there is a caption. */
  function WidthFor(text: string): (w: int)
    ensures text == "" <==> w == SwitchWidth
    ensures text != "" <==> w == SwitchWidth + CaptionWidth
  {
    SwitchWidth + (if text != "" then CaptionWidth else 0)
  }

  /** The icon an icon switch draws on its thumb. */
  function IconFor(checked: bool, onIcon: string, offIcon: string): (r: string)
    ensures checked ==> r == onIcon
    ensures !checked ==> r == offIcon
  {
    if checked then onIcon else offIcon
  }

  class ToggleSwitchWidget {
    var checked: bool
    var text: string
    var animationDuration: int
    /** Where the thumb rests. */
    var thumb: int
    var width: int
    /** Whether the caption label exists, and what it shows. */
    var hasCaption: bool
    var caption: string
    /** Whether the caption label sits in the layout Qt installed on the switch, and so is on screen. */
    var captionShown: bool
    /** The icons of an icon switch (on, off); none for a plain switch. */
    const icons: Option<(string, string)>

    /** The thumb rests at the state's end, and a caption label shows the text. */
    ghost predicate Valid()
      reads this
    {
      && thumb == ThumbEnd(checked)
      && (hasCaption ==> caption == text)
      && (captionShown ==> hasCaption)
    }

    /** `ToggleSwitchWidget(checked, text)`: the thumb starts at the end the state picks. */
    constructor (checked0: bool, text0: string)
      ensures Valid() && checked == checked0 && text == text0 && icons == None
      ensures thumb == ThumbEnd(checked0) && width == WidthFor(text0)
      ensures hasCaption <==> text0 != ""
      ensures captionShown <==> text0 != ""
      ensures animationDuration == 200
    {
      checked, text := checked0, text0;
      animationDuration := 200;
      icons := None;
      thumb := ThumbEnd(checked0);
      width := WidthFor(text0);
      hasCaption := text0 != "";
      captionShown := text0 != "";
      caption := text0;
    }

    /** `IconToggleSwitch(on_icon, off_icon, checked)`: a switch without caption that draws an icon. */
    constructor WithIcons(onIcon: string, offIcon: string, checked0: bool)
      ensures Valid() && checked == checked0 && text == "" && icons == Some((onIcon, offIcon))
      ensures thumb == ThumbEnd(checked0) && width == SwitchWidth && !hasCaption && !captionShown
    {
      checked, text := checked0, "";
      animationDuration := 200;
      icons := Some((onIcon, offIcon));
      thumb := ThumbEnd(checked0);
      width := WidthFor("");
      hasCaption, captionShown := false, false;
      caption := "";
    }

    /** The icon drawn on the thumb of an icon switch: the one for the state. */
    function Icon(): (r: Option<string>)
      reads this
      ensures r.Some? <==> icons.Some?
      ensures icons.Some? ==> r.value == (if checked then icons.value.0 else icons.value.1)
    {
      match icons
      case None => None
      case Some(p) => Some(IconFor(checked, p.0, p.1))
    }

    /**
     * `setChecked`: the current state changes nothing and fires nothing;
     * the other state is taken, the thumb goes to its end, and `toggled`
     * carries it.
     */
    method SetChecked(c: bool) returns (emitted: seq<bool>)
      requires Valid()
      modifies this`checked, this`thumb
      ensures Valid() && checked == c
      ensures c == old(checked) ==> thumb == old(thumb) && emitted == []
      ensures c != old(checked) ==> emitted == [c]
    {
      emitted := [];
      if c != checked {
        checked := c;
        thumb := ThumbEnd(c);
        emitted := [c];
      }
    }

    /** `toggle`: the state flips, and `toggled` carries the new one. */
    method Toggle() returns (emitted: seq<bool>)
      requires Valid()
      modifies this`checked, this`thumb
      ensures Valid() && checked == !old(checked) && emitted == [checked]
    {
      emitted := SetChecked(!checked);
    }

    /** `mousePressEvent`: a left click toggles; other buttons do nothing. */
    method Press(left: bool) returns (emitted: seq<bool>)
      requires Valid()
      modifies this`checked, this`thumb
      ensures Valid()
      ensures left ==> checked == !old(checked) && emitted == [checked]
      ensures !left ==> checked == old(checked) && emitted == []
    {
      emitted := [];
      if left {
        emitted := Toggle();
      }
    }

    method IsChecked() returns (b: bool)
      ensures b == checked
    {
      b := checked;
    }

    /**
     * `setText`: an existing caption label shows the text; without one
     * the setup runs again, which sizes the widget for the text, makes the
     * label when the text is not empty, and puts the thumb back at the
     * state's end. Its `QHBoxLayout(self)` is refused, because the switch
     * kept the layout its first setup installed, so the new label is
     * never on screen.
     */
    method SetText(t: string)
      requires Valid()
      modifies this`text, this`caption, this`hasCaption, this`width, this`thumb
      ensures Valid() && text == t && captionShown == old(captionShown)
      ensures old(hasCaption) ==> hasCaption && width == old(width)
      ensures !old(hasCaption) ==> (hasCaption <==> t != "") && width == WidthFor(t)
    {
      text := t;
      if hasCaption {
        caption := t;
      } else {
        width := WidthFor(t);
        if t != "" {
          hasCaption := true;
          caption := t;
        }
        thumb := ThumbEnd(checked);
      }
    }

    /** `setText` as intended: a caption made for a switch without one is shown beside the track. */
    method SetTextIntended(t: string)
      requires Valid()
      modifies this`text, this`caption, this`hasCaption, this`width, this`thumb, this`captionShown
      ensures Valid() && text == t
      ensures old(hasCaption) ==> hasCaption && width == old(width) && captionShown == old(captionShown)
      ensures !old(hasCaption) ==> (hasCaption <==> t != "") && (captionShown <==> t != "") && width == WidthFor(t)
    {
      var had := hasCaption;
      SetText(t);
      if !had {
        captionShown := t != "";
      }
    }

    method GetText() returns (t: string)
      ensures t == text
    {
      t := text;
    }

    method SetAnimationDuration(d: int)
      modifies this`animationDuration
      ensures animationDuration == d
    {
      animationDuration := d;
    }
  }

  /** As written, a switch built without a caption and then given one shows no caption. */
  method CaptionHiddenAfterSetText() returns (has: bool, shown: bool)
    ensures has && !shown
  {
    var s := new ToggleSwitchWidget(false, "");
    s.SetText("Wi-Fi");
    has, shown := s.hasCaption, s.captionShown;
  }

  /** As intended, the same switch shows the caption "Wi-Fi" beside the track. */
  method CaptionShownAfterSetTextIntended() returns (shown: bool, caption: string)
    ensures shown && caption == "Wi-Fi"
  {
    var s := new ToggleSwitchWidget(false, "");
    s.SetTextIntended("Wi-Fi");
    shown, caption := s.captionShown, s.caption;
  }

  /** Two toggles bring a switch back to where it was, with two signals. */
  method ToggleTwice(s: ToggleSwitchWidget) returns (emitted: seq<bool>)
    requires s.Valid()
    modifies s`checked, s`thumb
    ensures s.Valid() && s.checked == old(s.checked) && s.thumb == old(s.thumb)
    ensures emitted == [!s.checked, s.checked]
  {
    var e1 := s.Toggle();
    var e2 := s.Toggle();
    emitted := e1 + e2;
  }

  // ---------------------------------------------------------------------
  // the labelled switch

  class LabeledToggleSwitch {
    var onText: string
    var offText: string
    var checked: bool
    /** Whether the "on" caption is the emphasised one (otherwise the "off" caption is). */
    var onEmphasised: bool
    const switch: ToggleSwitchWidget

    /** The state mirrors the inner switch, and the caption of that state is emphasised. */
    ghost predicate Valid()
      reads this, switch
    {
      switch.Valid() && checked == switch.checked && onEmphasised == checked
    }

    /** `LabeledToggleSwitch(on_text, off_text, checked)`. */
    constructor (onText0: string, offText0: string, checked0: bool)
      ensures Valid() && checked == checked0 && fresh(switch)
      ensures onText == onText0 && offText == offText0
    {
      onText, offText, checked := onText0, offText0, checked0;
      onEmphasised := checked0;
      switch := new ToggleSwitchWidget(checked0, "");
    }

    /** `_on_toggled`: the state is copied, the captions restyled, and the signal passed on. */
    method OnToggled(c: bool) returns (emitted: seq<bool>)
      modifies this`checked, this`onEmphasised
      ensures checked == c && onEmphasised == c && emitted == [c]
    {
      checked := c;
      onEmphasised := c;
      emitted := [c];
    }

    /** Delivers what the inner switch emitted to `_on_toggled`. */
    method Relay(inner: seq<bool>) returns (emitted: seq<bool>)
      requires |inner| <= 1
      modifies this`checked, this`onEmphasised
      ensures inner == [] ==> emitted == [] && checked == old(checked) && onEmphasised == old(onEmphasised)
      ensures inner != [] ==> emitted == inner && checked == inner[0] && onEmphasised == inner[0]
    {
      emitted := [];
      if inner != [] {
        emitted := OnToggled(inner[0]);
      }
    }

    /** `setChecked`: through the inner switch; a change is mirrored and passed on, once. */
    method SetChecked(c: bool) returns (emitted: seq<bool>)
      requires Valid()
      modifies this`checked, this`onEmphasised, switch`checked, switch`thumb
      ensures Valid() && checked == c
      ensures c == old(checked) ==> emitted == []
      ensures c != old(checked) ==> emitted == [c]
    {
      var inner := switch.SetChecked(c);
      emitted := Relay(inner);
    }

    /** The user clicks the inner switch. */
    method Press(left: bool) returns (emitted: seq<bool>)
      requires Valid()
      modifies this`checked, this`onEmphasised, switch`checked, switch`thumb
      ensures Valid()
      ensures left ==> checked == !old(checked) && emitted == [checked]
      ensures !left ==> checked == old(checked) && emitted == []
    {
      var inner := switch.Press(left);
      emitted := Relay(inner);
    }

    method IsChecked() returns (b: bool)
      requires Valid()
      ensures b == checked
    {
      b := switch.checked;
    }

    method SetLabels(on: string, off: string)
      modifies this`onText, this`offText
      ensures onText == on && offText == off
    {
      onText, offText := on, off;
    }
  }

  // ---------------------------------------------------------------------
  // the group

  /** No switch object is stored under two names. */
  predicate DistinctSwitches(ss: seq<Named<ToggleSwitchWidget>>) {
    forall i, j :: 0 <= i < j < |ss| ==> ss[i].item != ss[j].item
  }

  ghost predicate AllValid(ss: seq<Named<ToggleSwitchWidget>>)
    reads set i | 0 <= i < |ss| :: ss[i].item
  {
    forall i :: 0 <= i < |ss| ==> ss[i].item.Valid()
  }

  /** The state a dictionary of states gives a name, or a default. */
  function StateOr(d: seq<Named<bool>>, n: string, default: bool): bool {
    match Get(d, n)
    case Some(b) => b
    case None => default
  }

  class ToggleSwitchGroup {
    /** Name to switch, in insertion order. */
    var switches: seq<Named<ToggleSwitchWidget>>

    ghost function Switches(): set<ToggleSwitchWidget>
      reads this
    {
      set i | 0 <= i < |switches| :: switches[i].item
    }

    ghost predicate Valid()
      reads this, Switches()
    {
      IsDict(switches) && DistinctSwitches(switches) && AllValid(switches)
    }

    constructor ()
      ensures Valid() && switches == []
    {
      switches := [];
    }

    /**
     * `get_states` (and what `switches_changed` carries): every switch's
     * name with its state, in insertion order.
     */
    function States(): (r: seq<Named<bool>>)
      reads this, Switches()
      ensures Names(r) == Names(switches)
      ensures forall i :: 0 <= i < |switches| ==> r[i] == Named(switches[i].name, switches[i].item.checked)
    {
      var r := seq(|switches|, i reads this, Switches() requires 0 <= i < |switches| =>
                     Named(switches[i].name, switches[i].item.checked));
      assert Names(r) == Names(switches);
      r
    }

    /** `add_switch`: a new switch with its caption and state is stored under the name, replacing any earlier one. */
    method AddSwitch(name: string, text: string, checked: bool) returns (s: ToggleSwitchWidget)
      requires Valid()
      modifies this`switches
      ensures Valid() && fresh(s)
      ensures switches == Put(old(switches), name, s)
      ensures s.checked == checked && s.text == text
    {
      s := new ToggleSwitchWidget(checked, text);
      Register(name, s);
    }

    /** Files a switch under a name, replacing the one stored there before. */
    method Register(name: string, s: ToggleSwitchWidget)
      requires Valid() && s.Valid() && s !in Switches()
      modifies this`switches
      ensures Valid()
      ensures switches == Put(old(switches), name, s)
    {
      var ss := switches;
      var e := Named(name, s);
      PutIsDict(ss, name, s);
      if name in Names(ss) {
        var k := IndexOf(Names(ss), name);
        PutAt(ss, k, s);
        ReplaceDistinct(ss, k, e);
        ReplaceValid(ss, k, e);
        switches := ss[k := e];
      } else {
        PutNew(ss, name, s);
        AppendDistinct(ss, e);
        AppendValid(ss, e);
        switches := ss + [e];
      }
    }

    method GetSwitch(name: string) returns (s: Option<ToggleSwitchWidget>)
      ensures s == Get(switches, name)
    {
      s := Get(switches, name);
    }

    /**
     * The switch stored under the name, if any, takes the state; the
     * others keep theirs. A change fires `switches_changed` with every
     * state.
     */
    method SetNamed(name: string, state: bool) returns (changed: seq<seq<Named<bool>>>)
      requires Valid()
      modifies Switches()
      ensures Valid()
      ensures forall i :: 0 <= i < |switches| ==>
                switches[i].item.checked == if switches[i].name == name then state else old(switches[i].item.checked)
      ensures |changed| <= 1 && forall c :: c in changed ==> c == States()
    {
      changed := [];
      if name in Names(switches) {
        var j := IndexOf(Names(switches), name);
        var e := switches[j].item.SetChecked(state);
        if e != [] {
          changed := [States()];
        }
        forall i | 0 <= i < |switches| && i != j
          ensures switches[i].item.checked == old(switches[i].item.checked) && switches[i].name != name
        {
          assert switches[i].item != switches[j].item;
          assert Names(switches)[i] != Names(switches)[j];
        }
      }
    }

    /**
     * `set_states`: every switch whose name is given takes that state;
     * names without a switch are ignored, and the other switches keep
     * theirs. Each switch that changes fires `switches_changed`.
     */
    method SetStates(states: seq<Named<bool>>) returns (changed: seq<seq<Named<bool>>>)
      requires Valid() && IsDict(states)
      modifies Switches()
      ensures Valid()
      ensures forall i :: 0 <= i < |switches| ==>
                switches[i].item.checked == StateOr(states, switches[i].name, old(switches[i].item.checked))
      ensures |changed| <= |states|
    {
      ghost var before := seq(|switches|, i reads this, Switches() requires 0 <= i < |switches| => switches[i].item.checked);
      changed := [];
      var k := 0;
      while k < |states|
        invariant 0 <= k <= |states|
        invariant Valid()
        invariant |changed| <= k
        invariant forall i :: 0 <= i < |switches| ==> switches[i].item.checked == StateOr(states[..k], switches[i].name, before[i])
      {
        GetPrefixStep(states, k);
        var c := SetNamed(states[k].name, states[k].item);
        changed := changed + c;
        k := k + 1;
      }
      assert states[..k] == states;
    }

    /** The user clicks the named switch: it flips, and `switches_changed` carries every state. */
    method Press(name: string) returns (changed: seq<seq<Named<bool>>>)
      requires Valid() && name in Names(switches)
      modifies Switches()
      ensures Valid()
      ensures forall i :: 0 <= i < |switches| ==>
                switches[i].item.checked == if switches[i].name == name then !old(switches[i].item.checked) else old(switches[i].item.checked)
      ensures changed == [States()]
    {
      var j := IndexOf(Names(switches), name);
      var e := switches[j].item.Toggle();
      changed := [States()];
      forall i | 0 <= i < |switches| && i != j
        ensures switches[i].item.checked == old(switches[i].item.checked) && switches[i].name != name
      {
        assert switches[i].item != switches[j].item;
        assert Names(switches)[i] != Names(switches)[j];
      }
    }
  }

  lemma ReplaceDistinct(ss: seq<Named<ToggleSwitchWidget>>, k: nat, e: Named<ToggleSwitchWidget>)
    requires DistinctSwitches(ss) && k < |ss| && forall i :: 0 <= i < |ss| ==> ss[i].item != e.item
    ensures DistinctSwitches(ss[k := e])
  {
  }

  lemma AppendDistinct(ss: seq<Named<ToggleSwitchWidget>>, e: Named<ToggleSwitchWidget>)
    requires DistinctSwitches(ss) && forall i :: 0 <= i < |ss| ==> ss[i].item != e.item
    ensures DistinctSwitches(ss + [e])
  {
  }

  lemma ReplaceValid(ss: seq<Named<ToggleSwitchWidget>>, k: nat, e: Named<ToggleSwitchWidget>)
    requires AllValid(ss) && k < |ss| && e.item.Valid()
    ensures AllValid(ss[k := e])
  {
  }

  lemma AppendValid(ss: seq<Named<ToggleSwitchWidget>>, e: Named<ToggleSwitchWidget>)
    requires AllValid(ss) && e.item.Valid()
    ensures AllValid(ss + [e])
  {
  }
}
