/**
 * Notification toasts: a popup with a type icon, a message, optional
 * action buttons and a close button, placed at one of seven screen
 * positions and closing itself after its duration; and a manager that
 * keeps at most five toasts, evicting the oldest. The slide-in and the
 * fade-out keep their animation in a local variable, deleted when the
 * method returns: as written a toast stays at the slide's start, 50
 * pixels above its place, and `close_animated` never completes, so no
 * toast closes and `closed` never reaches the manager. The intended
 * members take the animations at their end. The screen size and a
 * toast's laid-out size are parameters.
 */
module NotificationToast {
  import opened Common
  import opened BasePopup

  /** The type icon; an unknown type shows the info icon. */
  function TypeIcon(toastType: string): (icon: string)
    ensures toastType == "success" ==> icon == "✓"
    ensures toastType == "warning" ==> icon == "⚠"
    ensures toastType == "error" ==> icon == "✕"
    ensures toastType !in {"success", "warning", "error"} ==> icon == "ℹ"
  {
    if toastType == "success" then "✓"
    else if toastType == "warning" then "⚠"
    else if toastType == "error" then "✕"
    else "ℹ"
  }

  /** The background token; an unknown type uses info's. Text is always white. */
  function TypeBackground(toastType: string): (token: string)
    ensures toastType in {"success", "warning", "info"} ==> token == toastType
    ensures toastType == "error" ==> token == "danger"
    ensures toastType !in {"success", "warning", "error", "info"} ==> token == "info"
  {
    if toastType in {"success", "warning"} then toastType
    else if toastType == "error" then "danger"
    else "info"
  }

  /** An unknown type looks exactly like an info toast. */
  lemma UnknownTypeIsInfo(toastType: string)
    requires toastType !in {"info", "success", "warning", "error"}
    ensures TypeIcon(toastType) == TypeIcon("info") && TypeBackground(toastType) == TypeBackground("info")
  {
  }

  /** The auto-dismiss duration of the convenience functions: 5000 ms for errors, 3000 ms otherwise. */
  function PresetDuration(toastType: string): (ms: int)
    ensures toastType == "error" <==> ms == 5000
    ensures toastType != "error" <==> ms == 3000
  {
    if toastType == "error" then 5000 else 3000
  }

  /**
   * `show_toast`'s placement: 20-pixel margins at the corners and the
   * top and bottom centres, horizontally centred by floor division;
   * any other position is centred on the screen.
   */
  function ToastPoint(position: string, screenW: int, screenH: int, w: int, h: int): (p: Point)
    ensures position in {"top-left", "bottom-left"} ==> p.x == 20
    ensures position in {"top-right", "bottom-right"} ==> p.x + w + 20 == screenW
    ensures position in {"top-right", "top-left", "top-center"} ==> p.y == 20
    ensures position in {"bottom-right", "bottom-left", "bottom-center"} ==> p.y + h + 20 == screenH
    ensures position !in {"top-right", "top-left", "bottom-right", "bottom-left"} ==> 2 * p.x <= screenW - w < 2 * p.x + 2
    ensures position !in {"top-right", "top-left", "bottom-right", "bottom-left", "top-center", "bottom-center"} ==>
              2 * p.y <= screenH - h < 2 * p.y + 2
  {
    if position == "top-right" then Point(screenW - w - 20, 20)
    else if position == "top-left" then Point(20, 20)
    else if position == "bottom-right" then Point(screenW - w - 20, screenH - h - 20)
    else if position == "bottom-left" then Point(20, screenH - h - 20)
    else if position == "top-center" then Point((screenW - w) / 2, 20)
    else if position == "bottom-center" then Point((screenW - w) / 2, screenH - h - 20)
    else Point((screenW - w) / 2, (screenH - h) / 2)
  }

  /** The toast's placement agrees with the base toast popup's wherever the base popup knows the position. */
  lemma ToastPointAgreesWithBasePopup(position: string, screenW: int, screenH: int, w: int, h: int)
    requires position !in {"top-center", "bottom-center"}
    ensures ToastPoint(position, screenW, screenH, w, h) == ToastPosition(position, screenW, screenH, w, h)
  {
  }

  /** `NotificationToastWidget` and its subclasses. */
  datatype Kind = Plain | Persistent | Actions | WithProgress

  class NotificationToastWidget {
    const kind: Kind
    var message: string
    var toastType: string
    const duration: int
    const position: string
    /** The auto-dismiss delay, armed at construction for a positive duration. */
    const autoDismiss: Option<int>
    var icon: string
    var background: string
    /** The action buttons, each with the name it emits, and whether their row is shown. */
    var actions: seq<Named<string>>
    var actionsShown: bool
    var visible: bool
    var location: Point
    /**
     * `ProgressToast`'s progress and bar value (Qt keeps the value within
     * 0 to 100). The bar is never put in a layout: the toast looks for a
     * `message_layout` attribute, but the message layout is a local.
     */
    var progress: int
    var barValue: int
    const barInLayout: bool

    /** `NotificationToastWidget(message, toast_type, duration, position)`: hidden, no actions. */
    constructor (message0: string, toastType0: string, duration0: int, position0: string)
      ensures kind == Plain && message == message0 && toastType == toastType0 && duration == duration0
      ensures position == position0 && autoDismiss == (if duration0 > 0 then Some(duration0) else None)
      ensures icon == TypeIcon(toastType0) && background == TypeBackground(toastType0)
      ensures actions == [] && !actionsShown && !visible && !barInLayout
    {
      kind, message, toastType, duration, position := Plain, message0, toastType0, duration0, position0;
      autoDismiss := if duration0 > 0 then Some(duration0) else None;
      icon, background := TypeIcon(toastType0), TypeBackground(toastType0);
      actions, actionsShown, visible, location := [], false, false, Point(0, 0);
      progress, barValue, barInLayout := 0, 0, false;
    }

    /** `PersistentToast(message, toast_type, position)`: never closes by itself. */
    constructor Sticky(message0: string, toastType0: string, position0: string)
      ensures kind == Persistent && message == message0 && toastType == toastType0 && position == position0
      ensures duration == 0 && autoDismiss == None && actions == [] && !visible
    {
      kind, message, toastType, duration, position := Persistent, message0, toastType0, 0, position0;
      autoDismiss := None;
      icon, background := TypeIcon(toastType0), TypeBackground(toastType0);
      actions, actionsShown, visible, location := [], false, false, Point(0, 0);
      progress, barValue, barInLayout := 0, 0, false;
    }

    /** `ActionToast(message, primary_action, secondary_action, toast_type)`: top-right, no auto-dismiss. */
    constructor WithActions(message0: string, primary: string, secondary: string, toastType0: string)
      ensures kind == Actions && message == message0 && toastType == toastType0 && position == "top-right"
      ensures autoDismiss == None && !visible
      ensures actions == (if primary != "" then [Named("primary", primary)] else [])
                         + (if secondary != "" then [Named("secondary", secondary)] else [])
      ensures actionsShown <==> actions != []
    {
      kind, message, toastType, duration, position := Actions, message0, toastType0, 0, "top-right";
      autoDismiss := None;
      icon, background := TypeIcon(toastType0), TypeBackground(toastType0);
      actions, actionsShown, visible, location := [], false, false, Point(0, 0);
      progress, barValue, barInLayout := 0, 0, false;
      new;
      if primary != "" {
        AddAction(primary, Some("primary"));
      }
      if secondary != "" {
        AddAction(secondary, Some("secondary"));
      }
    }

    /** `ProgressToast(message, toast_type)`: top-right, no auto-dismiss, progress 0, a bar outside any layout. */
    constructor Progressing(message0: string, toastType0: string)
      ensures kind == WithProgress && message == message0 && toastType == toastType0 && position == "top-right"
      ensures autoDismiss == None && progress == 0 && barValue == 0 && !barInLayout && !visible
    {
      kind, message, toastType, duration, position := WithProgress, message0, toastType0, 0, "top-right";
      autoDismiss := None;
      icon, background := TypeIcon(toastType0), TypeBackground(toastType0);
      actions, actionsShown, visible, location := [], false, false, Point(0, 0);
      progress, barValue, barInLayout := 0, 0, false;
    }

    /** `add_action`: a button appended with its name (derived from the text when none is given), and the row shown. */
    method AddAction(text: string, name: Option<string>)
      modifies this`actions, this`actionsShown
      ensures actions == old(actions) + [Named(ActionName(text, name), text)]
      ensures actionsShown
    {
      actions := actions + [Named(ActionName(text, name), text)];
      actionsShown := true;
    }

    /** An action button: its name emitted, then `close_animated`, which as written leaves the toast open. */
    method ClickAction(i: nat) returns (actionClicked: string, closed: bool)
      requires i < |actions|
      ensures actionClicked == actions[i].name && !closed
    {
      actionClicked := actions[i].name;
      closed := CloseAnimated();
    }

    /** An action button with the intended close: its name emitted, then the toast closes. */
    method ClickActionIntended(i: nat) returns (actionClicked: string, closed: bool)
      requires i < |actions|
      modifies this`visible
      ensures actionClicked == actions[i].name && closed && !visible
    {
      actionClicked := actions[i].name;
      closed := CloseAnimatedIntended();
    }

    /**
     * `close_animated` as written (the base popup's): the fade-out's
     * completion never runs, so the toast stays shown and `closed` is not
     * emitted.
     */
    method CloseAnimated() returns (closed: bool)
      ensures !closed
    {
      closed := false;
    }

    /** The intended `close_animated`: faded out, closed, and `closed` emitted. */
    method CloseAnimatedIntended() returns (closed: bool)
      modifies this`visible
      ensures !visible && closed
    {
      visible, closed := false, true;
    }

    /**
     * `show_toast` as written: its first line names `QApplication`, which
     * the module never imports, so it raises `NameError` before the toast
     * moves or shows.
     */
    method ShowToast() returns (nameError: bool)
      ensures nameError
    {
      nameError := true;
    }

    /**
     * What `show_toast` does once it knows the screen: shown 50 pixels
     * above its position's point, where the slide-in starts and, its
     * animation deleted, stays; the offset it was given plays no part.
     */
    method ShowToastAt(screenW: int, screenH: int, w: int, h: int)
      modifies this`visible, this`location
      ensures visible
      ensures location == Point(ToastPoint(position, screenW, screenH, w, h).x, ToastPoint(position, screenW, screenH, w, h).y - 50)
    {
      var p := ToastPoint(position, screenW, screenH, w, h);
      visible, location := true, Point(p.x, p.y - 50);
    }

    method SetMessage(m: string)
      modifies this`message
      ensures message == m
    {
      message := m;
    }

    /** `set_type`: the type with its icon and colours. */
    method SetType(t: string)
      modifies this`toastType, this`icon, this`background
      ensures toastType == t && icon == TypeIcon(t) && background == TypeBackground(t)
    {
      toastType, icon, background := t, TypeIcon(t), TypeBackground(t);
    }

    /** `set_progress`: stored as given, the bar takes values within 0 to 100, and from 100 a close is scheduled. */
    method SetProgress(p: int) returns (closeScheduled: bool)
      requires kind == WithProgress
      modifies this`progress, this`barValue
      ensures progress == p && barValue == (if 0 <= p <= 100 then p else old(barValue))
      ensures closeScheduled <==> p >= 100
    {
      progress := p;
      if 0 <= p <= 100 {
        barValue := p;
      }
      closeScheduled := p >= 100;
    }
  }

  /** A toast the manager keeps: its position name, laid-out height, the offset it was given and where it shows. */
  datatype ActiveToast = ActiveToast(id: nat, position: string, height: int, offset: Option<int>, shownAt: Option<Point>)

  /** The space the active toasts at a position take: each one's height plus the spacing. */
  function StackHeight(active: seq<ActiveToast>, position: string, spacing: int): (total: int)
    ensures (forall i :: 0 <= i < |active| ==> active[i].height >= 0) && spacing >= 0 ==> total >= 0
  {
    if active == [] then 0
    else (if active[0].position == position then active[0].height + spacing else 0)
         + StackHeight(active[1..], position, spacing)
  }

  /** Toasts at other positions take no space in a stack. */
  lemma {:induction false} StackHeightOtherPositions(active: seq<ActiveToast>, position: string, spacing: int)
    requires forall i :: 0 <= i < |active| ==> active[i].position != position
    ensures StackHeight(active, position, spacing) == 0
  {
    if active != [] {
      StackHeightOtherPositions(active[1..], position, spacing);
    }
  }

  /** The stack grows by one toast's height and spacing when a toast at the same position joins it. */
  lemma {:induction false} StackHeightAppend(active: seq<ActiveToast>, t: ActiveToast, spacing: int)
    ensures StackHeight(active + [t], t.position, spacing) == StackHeight(active, t.position, spacing) + t.height + spacing
  {
    if active == [] {
      assert [t][1..] == [];
    } else {
      assert (active + [t])[1..] == active[1..] + [t];
      StackHeightAppend(active[1..], t, spacing);
    }
  }

  /**
   * `_position_toast`: nothing when no toast is active; otherwise the
   * stack height at the position, downwards for a "top" position and
   * upwards for a "bottom" one; other positions get none.
   */
  function PositionOffset(active: seq<ActiveToast>, position: string, spacing: int): (o: Option<int>)
    ensures active == [] ==> o == None
    ensures active != [] && Contains(position, "top") ==> o == Some(StackHeight(active, position, spacing))
    ensures active != [] && !Contains(position, "top") && Contains(position, "bottom") ==>
              o == Some(-StackHeight(active, position, spacing))
    ensures !Contains(position, "top") && !Contains(position, "bottom") ==> o == None
  {
    if active == [] then None
    else if Contains(position, "top") then Some(StackHeight(active, position, spacing))
    else if Contains(position, "bottom") then Some(-StackHeight(active, position, spacing))
    else None
  }

  function Ids(active: seq<ActiveToast>): (r: seq<nat>)
    ensures |r| == |active|
  {
    seq(|active|, i requires 0 <= i < |active| => active[i].id)
  }

  /** At most five toasts are active, each made by the manager and listed once, oldest first. */
  predicate ManagerValid(active: seq<ActiveToast>, nextId: nat) {
    |active| <= 5
    && (forall i :: 0 <= i < |active| ==> active[i].id < nextId)
    && (forall i, j :: 0 <= i < j < |active| ==> active[i].id < active[j].id)
  }

  /** `ToastManager`: the active toasts, oldest first, at most five, 10 pixels apart. */
  class ToastManager {
    var active: seq<ActiveToast>
    var nextId: nat
    const maxToasts: nat
    const spacing: int

    constructor ()
      ensures active == [] && nextId == 0 && maxToasts == 5 && spacing == 10
      ensures ManagerValid(active, nextId)
    {
      active, nextId, maxToasts, spacing := [], 0, 5, 10;
    }

    /**
     * With five toasts active, the oldest is dropped from the list; its
     * `close_animated` does not complete, and had it done so its closing
     * would find it gone.
     */
    method MakeRoom() returns (evicted: Option<nat>)
      requires ManagerValid(active, nextId) && maxToasts == 5
      modifies this`active
      ensures ManagerValid(active, nextId) && |active| < 5
      ensures |old(active)| >= 5 ==> evicted == Some(old(active)[0].id) && active == old(active)[1..]
      ensures |old(active)| < 5 ==> evicted == None && active == old(active)
    {
      evicted := None;
      if |active| >= maxToasts {
        evicted := Some(active[0].id);
        active := active[1..];
      }
    }

    /**
     * `show_toast` as written: room is made, the new toast gets its
     * offset and joins the end of the list, and then its `show_toast`
     * raises `NameError`, so it is never shown and the call fails.
     */
    method ShowToast(position: string, height: int) returns (id: nat, evicted: Option<nat>, nameError: bool)
      requires ManagerValid(active, nextId) && maxToasts == 5 && spacing == 10
      modifies this
      ensures ManagerValid(active, nextId) && |active| <= 5 && nameError
      ensures id == old(nextId) && nextId == id + 1
      ensures |old(active)| >= 5 ==> evicted == Some(old(active)[0].id)
      ensures |old(active)| < 5 ==> evicted == None
      ensures var kept := if |old(active)| >= 5 then old(active)[1..] else old(active);
              active == kept + [ActiveToast(id, position, height, PositionOffset(kept, position, 10), None)]
    {
      evicted := MakeRoom();
      id := nextId;
      active := active + [ActiveToast(id, position, height, PositionOffset(active, position, spacing), None)];
      nextId := nextId + 1;
      nameError := true;
    }

    /**
     * The intended `show_toast`: the toast shows at its position moved
     * along by its offset, so that toasts at one position stack instead
     * of covering each other.
     */
    method ShowToastIntended(position: string, screenW: int, screenH: int, w: int, height: int)
      returns (id: nat, evicted: Option<nat>)
      requires ManagerValid(active, nextId) && maxToasts == 5 && spacing == 10
      modifies this
      ensures ManagerValid(active, nextId) && id == old(nextId)
      ensures |old(active)| >= 5 ==> evicted == Some(old(active)[0].id)
      ensures var kept := if |old(active)| >= 5 then old(active)[1..] else old(active);
              var o := PositionOffset(kept, position, 10);
              var p := ToastPoint(position, screenW, screenH, w, height);
              active == kept + [ActiveToast(id, position, height, o, Some(StackedPoint(p, o)))]
    {
      evicted := MakeRoom();
      id := nextId;
      var o := PositionOffset(active, position, spacing);
      var p := ToastPoint(position, screenW, screenH, w, height);
      active := active + [ActiveToast(id, position, height, o, Some(StackedPoint(p, o)))];
      nextId := nextId + 1;
    }

    /** `_remove_toast`: a closed toast leaves the list; one no longer in it changes nothing. */
    method RemoveToast(id: nat)
      requires ManagerValid(active, nextId)
      modifies this`active
      ensures ManagerValid(active, nextId)
      ensures id !in Ids(old(active)) ==> active == old(active)
      ensures id in Ids(old(active)) ==> var i := IndexOf(Ids(old(active)), id);
                                         active == old(active)[..i] + old(active)[i + 1..]
    {
      if id in Ids(active) {
        var i := IndexOf(Ids(active), id);
        active := active[..i] + active[i + 1..];
      }
    }

    /**
     * `clear_all_toasts` as written: each active toast's `close_animated`
     * never completes, so no `closed` reaches `_remove_toast` and every
     * toast stays listed.
     */
    method ClearAllToasts() returns (stillActive: nat)
      requires ManagerValid(active, nextId)
      ensures stillActive == |active|
    {
      stillActive := |active|;
    }

    /** `clear_all_toasts` with the intended close: every active toast closes, and each closing removes it. */
    method ClearAllToastsIntended()
      requires ManagerValid(active, nextId)
      modifies this`active
      ensures ManagerValid(active, nextId) && active == []
    {
      var pending := active;
      while pending != []
        invariant ManagerValid(active, nextId)
        invariant active == pending
        decreases |pending|
      {
        assert Ids(active)[0] == pending[0].id;
        RemoveToast(pending[0].id);
        pending := pending[1..];
      }
    }

    /** `get_active_count`. */
    function ActiveCount(): (n: nat)
      reads this
      ensures n == |active| && (ManagerValid(active, nextId) ==> n <= 5)
    {
      |active|
    }
  }

  /** A shown toast's point moved by its offset; a toast without one stays at its position's point. */
  function StackedPoint(p: Point, offset: Option<int>): (q: Point)
    ensures q.x == p.x
    ensures offset.None? ==> q == p
    ensures offset.Some? ==> q.y == p.y + offset.value
  {
    if offset.Some? then Point(p.x, p.y + offset.value) else p
  }

  /**
   * Two top-right toasts of height 60 get the offsets None and 70, but
   * the widget's placement ignores them: both would show at y = -30, 50
   * pixels above the screen's top margin, one over the other. The
   * intended placement puts the second at y = 90.
   */
  method SecondToastCoversFirst() returns (firstY: int, secondY: int, secondIntendedY: int)
    ensures firstY == secondY == -30 && secondIntendedY == 90
  {
    assert OccursAt("top", "top-right", 0);
    var m := new ToastManager();
    var id1, e1, n1 := m.ShowToast("top-right", 60);
    var id2, e2, n2 := m.ShowToast("top-right", 60);
    assert m.active[1].offset == Some(70) by {
      assert m.active[..1] == [m.active[0]];
      assert StackHeight([m.active[0]], "top-right", 10) == 70;
    }
    var first := new NotificationToastWidget("a", "info", 3000, "top-right");
    var second := new NotificationToastWidget("b", "info", 3000, "top-right");
    first.ShowToastAt(1920, 1080, 350, 60);
    second.ShowToastAt(1920, 1080, 350, 60);
    firstY, secondY := first.location.y, second.location.y;
    secondIntendedY := StackedPoint(ToastPoint("top-right", 1920, 1080, 350, 60), m.active[1].offset).y;
  }
}
