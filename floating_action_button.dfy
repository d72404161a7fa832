/**
 * Floating action buttons: a round button kept near the bottom-right corner
 * of its parent that, when clicked, fans its sub-action buttons out in a
 * line (or, for an expandable button, in a chosen direction) and gathers
 * them back; a speed dial whose sub-actions report their names; and a
 * contextual button whose sub-actions are swapped per context.
 *
 * Animations are recorded as their start, end and duration, and a
 * sub-button is taken to sit where its animation ends.
 */
module FloatingActionButton {
  import opened Common
  import opened PyDict

  datatype Point = Point(x: int, y: int)

  /** A property animation of a button's position. */
  datatype Anim = Anim(start: Point, end: Point, duration: int)

  /** A sub-action button: its icon text, tooltip, the callback it runs (named), where it sits and whether it shows. */
  datatype SubButton = SubButton(icon: string, tooltip: string, callback: Option<string>, pos: Point, visible: bool)

  const Spacing := 60
  const PlusIcon := "✚"
  const CloseIcon := "✕"

  /** Where the FAB sits in a parent of that size: 20 pixels in from the bottom-right corner. */
  function CornerPosition(parentWidth: int, parentHeight: int, size: int): (p: Point)
    ensures p.x + size + 20 == parentWidth && p.y + size + 20 == parentHeight
  {
    Point(parentWidth - size - 20, parentHeight - size - 20)
  }

  /**
   * `int(60 * cos(a))` and `int(60 * sin(a))` for the angle `i * 45`
   * degrees, truncated toward zero.
   */
  function RadialOffset(i: nat): Point {
    match i % 8
    case 0 => Point(60, 0)
    case 1 => Point(42, 42)
    case 2 => Point(0, 60)
    case 3 => Point(-42, 42)
    case 4 => Point(-60, 0)
    case 5 => Point(-42, -42)
    case 6 => Point(0, -60)
    case _ => Point(42, -42)
  }

  /** Where sub-button `i` ends up when a FAB at `fab` expands in `direction`; an unknown direction is "up". */
  function Target(direction: string, fab: Point, i: nat): Point {
    var step := (i + 1) * Spacing;
    if direction == "down" then Point(fab.x + 8, fab.y + step)
    else if direction == "left" then Point(fab.x - step, fab.y + 8)
    else if direction == "right" then Point(fab.x + step, fab.y + 8)
    else if direction == "radial" then Point(fab.x + RadialOffset(i).x, fab.y - RadialOffset(i).y)
    else Point(fab.x + 8, fab.y - step)
  }

  /** In a line, each sub-button sits 60 pixels further out than the one before, 8 pixels off the axis. */
  lemma SpacingRule(direction: string, fab: Point, i: nat)
    ensures direction == "down" ==> Target(direction, fab, i + 1) == Point(fab.x + 8, Target(direction, fab, i).y + 60)
    ensures direction == "left" ==> Target(direction, fab, i + 1) == Point(Target(direction, fab, i).x - 60, fab.y + 8)
    ensures direction == "right" ==> Target(direction, fab, i + 1) == Point(Target(direction, fab, i).x + 60, fab.y + 8)
    ensures direction !in {"down", "left", "right", "radial"} ==>
              Target(direction, fab, i + 1) == Point(fab.x + 8, Target(direction, fab, i).y - 60)
  {
    assert (i + 2) * Spacing == (i + 1) * Spacing + 60;
  }

  /** In a line no two sub-buttons land on the same spot. */
  lemma {:induction false} LinearTargetsDistinct(direction: string, fab: Point, i: nat, j: nat)
    requires direction != "radial" && i != j
    ensures Target(direction, fab, i) != Target(direction, fab, j)
  {
    assert (i + 1) * Spacing != (j + 1) * Spacing;
  }

  /** An unknown direction fans out as "up" does. */
  lemma UnknownDirectionIsUp(direction: string, fab: Point, i: nat)
    requires direction !in {"up", "down", "left", "right", "radial"}
    ensures Target(direction, fab, i) == Target("up", fab, i)
  {
  }

  /** The radial fan repeats every eight buttons, each 42 to 60 pixels out along each axis. */
  lemma RadialRing(fab: Point, i: nat)
    ensures Target("radial", fab, i + 8) == Target("radial", fab, i)
    ensures var t := Target("radial", fab, i);
            (t.x - fab.x) * (t.x - fab.x) + (t.y - fab.y) * (t.y - fab.y) in {3600, 3528}
  {
    assert (i + 8) % 8 == i % 8;
  }

  /** The sub-buttons once an expansion's animations have run. */
  function ExpandedSubs(subs: seq<SubButton>, direction: string, fab: Point): (r: seq<SubButton>)
    ensures |r| == |subs|
  {
    seq(|subs|, i requires 0 <= i < |subs| => subs[i].(pos := Target(direction, fab, i), visible := true))
  }

  /** An expansion's animations: from the FAB to each target, staggered by 50 ms from 200 ms. */
  function ExpandAnims(n: nat, direction: string, fab: Point): (r: seq<Anim>)
    ensures |r| == n
  {
    seq(n, i requires 0 <= i < n => Anim(fab, Target(direction, fab, i), 200 + i * 50))
  }

  /** The sub-buttons once a collapse's animations have run and hidden them. */
  function CollapsedSubs(subs: seq<SubButton>, fab: Point): (r: seq<SubButton>)
    ensures |r| == |subs|
  {
    seq(|subs|, i requires 0 <= i < |subs| => subs[i].(pos := fab, visible := false))
  }

  /** A collapse's animations: from where each button is back to the FAB, 150 ms each. */
  function CollapseAnims(subs: seq<SubButton>, fab: Point): (r: seq<Anim>)
    ensures |r| == |subs|
  {
    seq(|subs|, i requires 0 <= i < |subs| => Anim(subs[i].pos, fab, 150))
  }

  /** Collapsing undoes an expansion: the buttons are back at the FAB, hidden, with their icons and callbacks. */
  lemma CollapseUndoesExpand(subs: seq<SubButton>, direction: string, fab: Point)
    ensures CollapsedSubs(ExpandedSubs(subs, direction, fab), fab) == CollapsedSubs(subs, fab)
    ensures forall i :: 0 <= i < |subs| ==>
              CollapsedSubs(subs, fab)[i].icon == subs[i].icon && CollapsedSubs(subs, fab)[i].callback == subs[i].callback
  {
    var a, b := CollapsedSubs(ExpandedSubs(subs, direction, fab), fab), CollapsedSubs(subs, fab);
    assert forall i :: 0 <= i < |subs| ==> a[i] == b[i];
  }

  /** Every collapse animation ends at the FAB, and every expansion animation starts there. */
  lemma AnimationsMeetAtFab(subs: seq<SubButton>, direction: string, fab: Point)
    ensures forall a :: a in CollapseAnims(subs, fab) ==> a.end == fab && a.duration == 150
    ensures forall a :: a in ExpandAnims(|subs|, direction, fab) ==> a.start == fab && a.duration >= 200
  {
    forall a | a in ExpandAnims(|subs|, direction, fab)
      ensures a.start == fab && a.duration >= 200
    {
      var i :| 0 <= i < |subs| && ExpandAnims(|subs|, direction, fab)[i] == a;
    }
  }

  /**
   * A floating action button (and, with a direction, an expandable one).
   * `parent` is the size of the parent widget, when there is one.
   */
  class Fab {
    const size: int
    const direction: string
    var parent: Option<Point>
    var pos: Point
    var text: string
    var expanded: bool
    var subs: seq<SubButton>
    /** Every animation started, in order; the list is never emptied. */
    var animations: seq<Anim>

    /** A FAB with a parent sits in its corner; one without stays at (0, 0). */
    constructor (iconText: string, size: int, direction: string, parent: Option<Point>)
      ensures this.size == size && this.direction == direction && this.parent == parent
      ensures text == iconText && !expanded && subs == [] && animations == []
      ensures parent.Some? ==> pos == CornerPosition(parent.value.x, parent.value.y, size)
      ensures parent.None? ==> pos == Point(0, 0)
    {
      this.size := size;
      this.direction := direction;
      this.parent := parent;
      text := iconText;
      expanded := false;
      subs := [];
      animations := [];
      pos := if parent.Some? then CornerPosition(parent.value.x, parent.value.y, size) else Point(0, 0);
    }

    /** `resizeEvent`: a FAB with a parent moves back to the corner of the parent's current size. */
    method Resize(parentSize: Point)
      modifies this`pos, this`parent
      ensures parent == (if old(parent).Some? then Some(parentSize) else None)
      ensures old(parent).Some? ==> pos == CornerPosition(parentSize.x, parentSize.y, size)
      ensures old(parent).None? ==> pos == old(pos)
    {
      if parent.Some? {
        parent := Some(parentSize);
        pos := CornerPosition(parentSize.x, parentSize.y, size);
      }
    }

    /** `add_sub_action`: a hidden button at the FAB, appended after the others. */
    method AddSubAction(icon: string, tooltip: string, callback: Option<string>)
      modifies this`subs
      ensures subs == old(subs) + [SubButton(icon, tooltip, callback, pos, false)]
    {
      subs := subs + [SubButton(icon, tooltip, callback, pos, false)];
    }

    /** `_expand`: with no sub-buttons nothing happens; otherwise they fan out and show. */
    method Expand()
      modifies this`expanded, this`text, this`subs, this`animations
      ensures old(subs) == [] ==> expanded == old(expanded) && text == old(text) && animations == old(animations) && subs == []
      ensures old(subs) != [] ==> expanded && text == CloseIcon
      ensures old(subs) != [] ==> subs == ExpandedSubs(old(subs), direction, pos)
      ensures old(subs) != [] ==> animations == old(animations) + ExpandAnims(|subs|, direction, pos)
    {
      if subs != [] {
        expanded := true;
        text := CloseIcon;
        FanOut();
      }
    }

    /** The loop of `_expand`. */
    method FanOut()
      modifies this`subs, this`animations
      ensures subs == ExpandedSubs(old(subs), direction, pos)
      ensures animations == old(animations) + ExpandAnims(|subs|, direction, pos)
    {
      ghost var s0, a0 := subs, animations;
      for i := 0 to |subs|
        invariant |subs| == |s0|
        invariant forall j :: 0 <= j < i ==> subs[j] == ExpandedSubs(s0, direction, pos)[j]
        invariant forall j :: i <= j < |subs| ==> subs[j] == s0[j]
        invariant animations == a0 + ExpandAnims(i, direction, pos)
      {
        var target := Target(direction, pos, i);
        subs := subs[i := subs[i].(pos := target, visible := true)];
        animations := animations + [Anim(pos, target, 200 + i * 50)];
      }
    }

    /** `_collapse`: when not expanded nothing happens; otherwise the buttons go back to the FAB and hide. */
    method Collapse()
      modifies this`expanded, this`text, this`subs, this`animations
      ensures !old(expanded) ==> expanded == old(expanded) && text == old(text) && subs == old(subs) && animations == old(animations)
      ensures old(expanded) ==> !expanded && text == PlusIcon
      ensures old(expanded) ==> subs == CollapsedSubs(old(subs), pos)
      ensures old(expanded) ==> animations == old(animations) + CollapseAnims(old(subs), pos)
    {
      if expanded {
        expanded := false;
        text := PlusIcon;
        GatherIn();
      }
    }

    /** The loop of `_collapse`. */
    method GatherIn()
      modifies this`subs, this`animations
      ensures subs == CollapsedSubs(old(subs), pos)
      ensures animations == old(animations) + CollapseAnims(old(subs), pos)
    {
      ghost var s0, a0 := subs, animations;
      for i := 0 to |subs|
        invariant |subs| == |s0|
        invariant forall j :: 0 <= j < i ==> subs[j] == CollapsedSubs(s0, pos)[j]
        invariant forall j :: i <= j < |subs| ==> subs[j] == s0[j]
        invariant animations == a0 + CollapseAnims(s0[..i], pos)
      {
        animations := animations + [Anim(subs[i].pos, pos, 150)];
        assert s0[..i + 1] == s0[..i] + [s0[i]];
        subs := subs[i := subs[i].(pos := pos, visible := false)];
      }
      assert s0[..|s0|] == s0;
    }

    /** `_toggle_expansion`, the FAB's click: an expanded FAB collapses, any other expands. */
    method Toggle()
      modifies this`expanded, this`text, this`subs, this`animations
      ensures old(expanded) ==> !expanded && subs == CollapsedSubs(old(subs), pos)
      ensures !old(expanded) && old(subs) != [] ==> expanded && subs == ExpandedSubs(old(subs), direction, pos)
      ensures !old(expanded) && old(subs) == [] ==> !expanded && subs == []
    {
      if expanded {
        Collapse();
      } else {
        Expand();
      }
    }

    /** A click on sub-button `i`: one with a callback runs it, then the FAB collapses; one without does nothing. */
    method ClickSub(i: nat) returns (ran: Option<string>)
      requires i < |subs|
      modifies this`expanded, this`text, this`subs, this`animations
      ensures ran == old(subs[i].callback)
      ensures ran.None? ==> expanded == old(expanded) && subs == old(subs) && text == old(text)
      ensures ran.Some? ==> !expanded
      ensures ran.Some? && old(expanded) ==> subs == CollapsedSubs(old(subs), pos) && text == PlusIcon
    {
      ran := subs[i].callback;
      if ran.Some? {
        Collapse();
      }
    }
  }

  /** What a speed dial records of an action. */
  datatype ActionInfo = ActionInfo(icon: string, tooltip: string)

  /** A speed dial: a FAB whose sub-actions report their names. */
  class SpeedDial {
    const fab: Fab
    var actions: Dict<ActionInfo>

    constructor (parent: Option<Point>)
      ensures fresh(fab) && actions == []
      ensures fab.text == "⚡" && fab.size == 56 && fab.direction == "up" && fab.subs == [] && !fab.expanded
    {
      fab := new Fab("⚡", 56, "up", parent);
      actions := [];
    }

    /**
     * `add_speed_dial_action`: a sub-button whose callback reports the name,
     * its tooltip the given one or else the name; the action is recorded
     * under its name, replacing an earlier one.
     */
    method AddAction(name: string, icon: string, tooltip: string)
      modifies this`actions, fab`subs
      ensures fab.subs == old(fab.subs) + [SubButton(icon, if tooltip != "" then tooltip else name, Some(name), fab.pos, false)]
      ensures Get(actions, name) == Some(ActionInfo(icon, tooltip))
      ensures forall k :: k != name ==> Get(actions, k) == Get(old(actions), k)
    {
      fab.AddSubAction(icon, if tooltip != "" then tooltip else name, Some(name));
      PutIsDict(actions, name, ActionInfo(icon, tooltip));
      actions := Put(actions, name, ActionInfo(icon, tooltip));
    }

    /** `get_actions`: a copy of the recorded actions. */
    function GetActions(): (m: map<string, ActionInfo>)
      reads this
      ensures forall k :: k in m <==> k in Names(actions)
      ensures forall k :: k in m ==> Get(actions, k) == Some(m[k])
    {
      ToMap(actions)
    }

    /**
     * A click on sub-button `i` emits its action's name and collapses the
     * open dial: every sub-button goes back to the FAB and hides, and the
     * FAB shows "✚", the base class's icon, rather than its own "⚡".
     */
    method ClickSub(i: nat) returns (triggered: Option<string>)
      requires i < |fab.subs|
      modifies fab`expanded, fab`text, fab`subs, fab`animations
      ensures triggered == old(fab.subs[i].callback)
      ensures triggered.Some? ==> !fab.expanded
      ensures triggered.Some? && old(fab.expanded) ==>
                && fab.text == PlusIcon && |fab.subs| == |old(fab.subs)|
                && forall j :: 0 <= j < |fab.subs| ==> !fab.subs[j].visible && fab.subs[j].pos == fab.pos
      ensures triggered.None? ==> fab.expanded == old(fab.expanded) && fab.subs == old(fab.subs) && fab.text == old(fab.text)
    {
      triggered := fab.ClickSub(i);
    }
  }

  /** A sub-action of a context, each key optional. */
  datatype ActionSpec = ActionSpec(icon: Option<string>, tooltip: Option<string>, callback: Option<string>)

  datatype Context = Context(icon: string, actions: seq<ActionSpec>)

  /** The sub-button an action of a context becomes: "•" and no tooltip by default. */
  function SubFor(a: ActionSpec, at: Point): (b: SubButton)
    ensures a.icon.None? ==> b.icon == "•"
    ensures a.icon.Some? ==> b.icon == a.icon.value
    ensures b.callback == a.callback && !b.visible && b.pos == at
  {
    SubButton(
      match a.icon case Some(i) => i case None => "•",
      match a.tooltip case Some(t) => t case None => "",
      a.callback, at, false)
  }

  /** The sub-buttons of a context, one per action, in order. */
  function SubsFor(actions: seq<ActionSpec>, at: Point): (r: seq<SubButton>)
    ensures |r| == |actions|
    ensures forall i :: 0 <= i < |actions| ==> r[i] == SubFor(actions[i], at)
  {
    if actions == [] then [] else SubsFor(actions[..|actions| - 1], at) + [SubFor(actions[|actions| - 1], at)]
  }

  /** A contextual FAB: each context names an icon and the sub-actions to show. */
  class ContextualFab {
    const fab: Fab
    var contexts: Dict<Context>
    var current: string

    constructor (parent: Option<Point>)
      ensures fresh(fab) && contexts == [] && current == "default"
      ensures fab.text == PlusIcon && fab.size == 56 && fab.direction == "up" && fab.subs == [] && !fab.expanded
    {
      fab := new Fab(PlusIcon, 56, "up", parent);
      contexts := [];
      current := "default";
    }

    /** `add_context`: recorded under its name, replacing an earlier one. */
    method AddContext(name: string, icon: string, actions: seq<ActionSpec>)
      modifies this`contexts
      ensures Get(contexts, name) == Some(Context(icon, actions))
      ensures forall k :: k != name ==> Get(contexts, k) == Get(old(contexts), k)
    {
      PutIsDict(contexts, name, Context(icon, actions));
      contexts := Put(contexts, name, Context(icon, actions));
    }

    /**
     * `set_context`: an unknown name changes nothing; otherwise the FAB
     * collapses, its sub-buttons are replaced by the context's actions,
     * its text becomes the context's icon, and the name is emitted.
     */
    method SetContext(name: string) returns (emitted: Option<string>)
      modifies this`current, fab`expanded, fab`text, fab`subs, fab`animations
      ensures name !in Names(contexts) ==>
                (emitted == None && current == old(current) &&
                 fab.subs == old(fab.subs) && fab.expanded == old(fab.expanded) && fab.text == old(fab.text))
      ensures name in Names(contexts) ==> emitted == Some(name) && current == name && !fab.expanded
      ensures name in Names(contexts) ==> fab.text == Get(contexts, name).value.icon
      ensures name in Names(contexts) ==> fab.subs == SubsFor(Get(contexts, name).value.actions, fab.pos)
    {
      emitted := None;
      var found := Get(contexts, name);
      if found.Some? {
        fab.Collapse();
        current := name;
        Show(found.value);
        emitted := Some(name);
      }
    }

    /** The rest of `set_context`: the old sub-buttons go, the context's icon and actions come in. */
    method Show(c: Context)
      modifies fab`text, fab`subs
      ensures fab.text == c.icon && fab.subs == SubsFor(c.actions, fab.pos)
    {
      fab.subs := [];
      fab.text := c.icon;
      var actions := c.actions;
      for i := 0 to |actions|
        invariant fab.subs == SubsFor(actions[..i], fab.pos) && fab.text == c.icon
      {
        var b := SubFor(actions[i], fab.pos);
        fab.AddSubAction(b.icon, b.tooltip, b.callback);
        assert actions[..i + 1][..i] == actions[..i];
      }
      assert actions[..|actions|] == actions;
    }

    /** `get_current_context`. */
    function CurrentContext(): (c: string)
      reads this
      ensures c == current
    {
      current
    }
  }
}
