/**
 * Tooltips: a dark, non-modal popup with an optional icon, a text and
 * action buttons, placed near the cursor or beside a widget; rich and
 * help tooltips that stack titles, descriptions and shortcuts; status and
 * interactive variants; and a manager that shows a widget's tooltip after
 * its hover delay, one at a time. Covered widgets are identified by
 * number; screen geometry and laid-out sizes are parameters. The fades
 * are those of `BasePopup`: as written a shown tooltip is transparent and
 * `close_animated` only makes it opaque; the intended members take each
 * fade at its end. The manager as written is not a QObject, so it cannot
 * filter events; `TooltipManagerIntended` is the manager as meant.
 */
module Tooltip {
  import opened Common
  import opened BasePopup

  /** Python truthiness of the optional icon argument: given and non-empty. */
  predicate HasIcon(icon: Option<string>) {
    icon.Some? && icon.value != ""
  }

  /**
   * `show_tooltip_at`'s placement on a screen whose `right()` is
   * `x + w - 1`: ten pixels above the cursor, moved left to end at the
   * screen's right edge, then right to start at its left edge, and 20
   * pixels below the cursor when above would leave the screen's top.
   */
  function TooltipAt(pos: Point, screen: Rect, w: int, h: int): (p: Point)
    ensures pos.y - h - 10 >= screen.y ==> p.y == pos.y - h - 10
    ensures pos.y - h - 10 < screen.y ==> p.y == pos.y + 20
    ensures p.x >= screen.x
    ensures p.x + w <= screen.x + screen.w - 1 || p.x == screen.x
    ensures pos.x + w <= screen.x + screen.w - 1 && pos.x >= screen.x ==> p.x == pos.x
  {
    var right := screen.x + screen.w - 1;
    var x1 := if pos.x + w > right then right - w else pos.x;
    var x := if x1 < screen.x then screen.x else x1;
    var y := if pos.y - h - 10 < screen.y then pos.y + 20 else pos.y - h - 10;
    Point(x, y)
  }

  /** A tooltip narrower than the screen is placed wholly on it horizontally, never above its top for a cursor on it. */
  lemma TooltipOnScreen(pos: Point, screen: Rect, w: int, h: int)
    requires 0 <= w < screen.w && 0 <= h
    requires screen.y <= pos.y
    ensures var p := TooltipAt(pos, screen, w, h);
            screen.x <= p.x && p.x + w < screen.x + screen.w && screen.y <= p.y
  {
  }

  /**
   * `show_for_widget`'s placement beside a widget at global `origin` of
   * size `ww` x `wh`: 5 pixels above, below, left or right of it, centred
   * on it along the other axis, and centred on it for any other position.
   */
  function ForWidgetPoint(position: string, origin: Point, ww: int, wh: int, w: int, h: int): (p: Point)
    ensures position == "top" ==> p.y + h + 5 == origin.y
    ensures position == "bottom" ==> p.y == origin.y + wh + 5
    ensures position == "left" ==> p.x + w + 5 == origin.x
    ensures position == "right" ==> p.x == origin.x + ww + 5
    ensures position !in {"left", "right"} ==> p.x == origin.x + ww / 2 - w / 2
    ensures position !in {"top", "bottom"} ==> p.y == origin.y + wh / 2 - h / 2
  {
    var cx := origin.x + ww / 2 - w / 2;
    var cy := origin.y + wh / 2 - h / 2;
    if position == "top" then Point(cx, origin.y - h - 5)
    else if position == "bottom" then Point(cx, origin.y + wh + 5)
    else if position == "left" then Point(origin.x - w - 5, cy)
    else if position == "right" then Point(origin.x + ww + 5, cy)
    else Point(cx, cy)
  }

  /** Centring halves each size separately, so it is off by at most one pixel from the exact centre. */
  lemma CentredWithinAPixel(position: string, origin: Point, ww: int, wh: int, w: int, h: int)
    requires position !in {"left", "right"}
    ensures var p := ForWidgetPoint(position, origin, ww, wh, w, h);
            ww - w - 1 <= 2 * (p.x - origin.x) <= ww - w + 1
  {
  }

  /** The icon of a status tooltip; an unknown status shows ℹ. */
  function StatusIcon(status: string): (icon: string)
    ensures status == "success" ==> icon == "✓"
    ensures status == "error" ==> icon == "✗"
    ensures status == "warning" ==> icon == "⚠"
    ensures status == "loading" ==> icon == "⟳"
    ensures status !in {"success", "error", "warning", "loading"} ==> icon == "ℹ"
  {
    if status == "success" then "✓"
    else if status == "error" then "✗"
    else if status == "warning" then "⚠"
    else if status == "loading" then "⟳"
    else "ℹ"
  }

  /** The background token of a status tooltip; an unknown status keeps the dark one. */
  function StatusBackground(status: string): (token: string)
    ensures status in {"success", "warning", "info"} ==> token == status
    ensures status == "error" ==> token == "danger"
    ensures status == "loading" ==> token == "primary"
    ensures status !in {"success", "error", "warning", "info", "loading"} ==> token == "dark"
  {
    if status in {"success", "warning", "info"} then status
    else if status == "error" then "danger"
    else if status == "loading" then "primary"
    else "dark"
  }

  /** The rows a rich tooltip stacks. */
  datatype RichItem = Title(title: string) | Description(description: string) | Divider | Shortcut(caption: string)

  /** `HelpTooltip`'s rows: the title and description when non-empty, then a separator and the shortcut when one is given. */
  function HelpItems(title: string, description: string, shortcut: string): (r: seq<RichItem>)
    ensures Title(title) in r <==> title != ""
    ensures Description(description) in r <==> description != ""
    ensures Divider in r <==> shortcut != ""
    ensures |r| == (if title != "" then 1 else 0) + (if description != "" then 1 else 0) + (if shortcut != "" then 2 else 0)
    ensures shortcut != "" ==> r[|r| - 2..] == [Divider, Shortcut("Shortcut: " + shortcut)]
  {
    (if title != "" then [Title(title)] else [])
    + (if description != "" then [Description(description)] else [])
    + (if shortcut != "" then [Divider, Shortcut("Shortcut: " + shortcut)] else [])
  }

  /** Three appended stretches of rows together are the help rows. */
  lemma HelpRowsJoin(s0: seq<RichItem>, s1: seq<RichItem>, s2: seq<RichItem>, s3: seq<RichItem>,
                     title: string, description: string, shortcut: string)
    requires s1 == s0 + (if title != "" then [Title(title)] else [])
    requires s2 == s1 + (if description != "" then [Description(description)] else [])
    requires s3 == s2 + (if shortcut != "" then [Divider, Shortcut("Shortcut: " + shortcut)] else [])
    requires s0 == []
    ensures s3 == HelpItems(title, description, shortcut)
  {
    var t := if title != "" then [Title(title)] else [];
    var d := if description != "" then [Description(description)] else [];
    var k := if shortcut != "" then [Divider, Shortcut("Shortcut: " + shortcut)] else [];
    assert s3 == s0 + t + d + k;
    assert s0 + t + d + k == t + d + k;
  }

  class TooltipWidget {
    var text: string
    var icon: Option<string>
    /** The hover delay in milliseconds before the manager shows it. */
    const delay: int
    /** The action buttons in order: each action's name and text. */
    var actions: seq<Named<string>>
    var actionsShown: bool
    /** The header labels exist only when built with a text or an icon, and what they show. */
    const hasIconLabel: bool
    const hasTextLabel: bool
    var iconShown: string
    var textShown: string
    var background: string
    /** `InteractiveTooltip`'s close button, placed in the header. */
    const hasCloseButton: bool
    /** `RichTooltip`'s stacked rows. */
    const rich: bool
    var richItems: seq<RichItem>
    var visible: bool
    var position: Point
    /** The popup's opacity in percent, as in `BasePopup.Popup`. */
    var opacity: int

    /** `TooltipWidget(text, icon, delay)`: labels for a non-empty text and a given icon, no actions. */
    constructor (text: string, icon: Option<string>, delay: int)
      ensures this.text == text && this.icon == icon && this.delay == delay
      ensures hasTextLabel == (text != "") && textShown == text
      ensures hasIconLabel == HasIcon(icon) && iconShown == (if HasIcon(icon) then icon.value else "")
      ensures actions == [] && !actionsShown && !visible && background == "dark" && opacity == 100
      ensures !hasCloseButton && !rich && richItems == []
    {
      this.text, this.icon, this.delay := text, icon, delay;
      hasTextLabel, textShown := text != "", text;
      hasIconLabel := HasIcon(icon);
      iconShown := if HasIcon(icon) then icon.value else "";
      actions, actionsShown, visible, position, opacity := [], false, false, Point(0, 0), 100;
      background, hasCloseButton, rich, richItems := "dark", false, false, [];
    }

    /** `StatusTooltip(status, details)`: the details as text, the status icon and background, a 200 ms delay. */
    constructor Status(status: string, details: string)
      ensures text == details && icon == Some(StatusIcon(status)) && delay == 200
      ensures hasIconLabel && iconShown == StatusIcon(status)
      ensures background == StatusBackground(status)
      ensures actions == [] && !visible && !rich
    {
      text, icon, delay := details, Some(StatusIcon(status)), 200;
      hasTextLabel, textShown := details != "", details;
      hasIconLabel, iconShown := true, StatusIcon(status);
      actions, actionsShown, visible, position, opacity := [], false, false, Point(0, 0), 100;
      background, hasCloseButton, rich, richItems := StatusBackground(status), false, false, [];
    }

    /**
     * `InteractiveTooltip(text)`: no icon, delay 0, and a close button in
     * the header, which exists only for a non-empty text.
     */
    constructor Interactive(text: string)
      ensures this.text == text && icon == None && delay == 0
      ensures hasCloseButton <==> text != ""
      ensures actions == [] && !visible && !rich
    {
      this.text, icon, delay := text, None, 0;
      hasTextLabel, textShown := text != "", text;
      hasIconLabel, iconShown := false, "";
      actions, actionsShown, visible, position, opacity := [], false, false, Point(0, 0), 100;
      background, hasCloseButton, rich, richItems := "dark", text != "", false, [];
    }

    /** `RichTooltip()`: no text or icon, and an empty stack of rows. */
    constructor Rich()
      ensures text == "" && icon == None && delay == 500
      ensures !hasTextLabel && !hasIconLabel
      ensures rich && richItems == [] && actions == [] && !visible
    {
      text, icon, delay := "", None, 500;
      hasTextLabel, textShown := false, "";
      hasIconLabel, iconShown := false, "";
      actions, actionsShown, visible, position, opacity := [], false, false, Point(0, 0), 100;
      background, hasCloseButton, rich, richItems := "dark", false, true, [];
    }

    /** `HelpTooltip(title, description, shortcut)`. */
    constructor Help(title: string, description: string, shortcut: string)
      ensures rich && richItems == HelpItems(title, description, shortcut)
      ensures text == "" && !visible
    {
      text, icon, delay := "", None, 500;
      hasTextLabel, textShown := false, "";
      hasIconLabel, iconShown := false, "";
      actions, actionsShown, visible, position, opacity := [], false, false, Point(0, 0), 100;
      background, hasCloseButton, rich, richItems := "dark", false, true, [];
      new;
      AddHelpRows(title, description, shortcut);
    }

    /** The rows `HelpTooltip` adds to its empty stack: the title, the description, and a separator with the shortcut, each when given. */
    method AddHelpRows(title: string, description: string, shortcut: string)
      requires rich && richItems == []
      modifies this`richItems
      ensures richItems == HelpItems(title, description, shortcut)
    {
      ghost var start := richItems;
      if title != "" {
        AddTitle(title);
      }
      ghost var afterTitle := richItems;
      if description != "" {
        AddDescription(description);
      }
      ghost var afterDescription := richItems;
      if shortcut != "" {
        AddSeparator();
        AddShortcut(shortcut);
      }
      HelpRowsJoin(start, afterTitle, afterDescription, richItems, title, description, shortcut);
    }

    method AddTitle(title: string)
      requires rich
      modifies this`richItems
      ensures richItems == old(richItems) + [Title(title)]
    {
      richItems := richItems + [Title(title)];
    }

    method AddDescription(description: string)
      requires rich
      modifies this`richItems
      ensures richItems == old(richItems) + [Description(description)]
    {
      richItems := richItems + [Description(description)];
    }

    /** A shortcut row reads "Shortcut: " and the key sequence. */
    method AddShortcut(shortcut: string)
      requires rich
      modifies this`richItems
      ensures richItems == old(richItems) + [Shortcut("Shortcut: " + shortcut)]
    {
      richItems := richItems + [Shortcut("Shortcut: " + shortcut)];
    }

    method AddSeparator()
      requires rich
      modifies this`richItems
      ensures richItems == old(richItems) + [Divider]
    {
      richItems := richItems + [Divider];
    }

    /** `add_action`: a button with the given or derived name appended, and the action row shown. */
    method AddAction(caption: string, name: Option<string>)
      modifies this`actions, this`actionsShown
      ensures actions == old(actions) + [Named(ActionName(caption, name), caption)]
      ensures Names(actions) == Names(old(actions)) + [ActionName(caption, name)]
      ensures actionsShown
    {
      NamesAppend(actions, [Named(ActionName(caption, name), caption)]);
      actions := actions + [Named(ActionName(caption, name), caption)];
      actionsShown := true;
    }

    /** Whether anything of the tooltip can be seen: shown and not fully transparent. */
    predicate Seen()
      reads this
    {
      visible && opacity > 0
    }

    /**
     * Clicking action button `i` emits its name and calls `close_animated`,
     * which as written leaves the tooltip shown and makes it opaque.
     */
    method ClickAction(i: nat) returns (emitted: string)
      requires i < |actions|
      modifies this`opacity
      ensures emitted == actions[i].name && emitted in Names(actions)
      ensures opacity == 100
    {
      emitted := actions[i].name;
      var _ := CloseAnimated();
    }

    /** Clicking action button `i` with the intended close: its name is emitted and the tooltip closes. */
    method ClickActionIntended(i: nat) returns (emitted: string)
      requires i < |actions|
      modifies this`visible, this`opacity
      ensures emitted == actions[i].name && emitted in Names(actions)
      ensures !Seen() && !visible
    {
      emitted := actions[i].name;
      var _ := CloseAnimatedIntended();
    }

    /** `close_animated` as written: the fade-out only sets full opacity; the tooltip stays shown and `closed` is not emitted. */
    method CloseAnimated() returns (closed: bool)
      modifies this`opacity
      ensures opacity == 100 && !closed
    {
      opacity := 100;
      closed := false;
    }

    /** The intended `close_animated`: faded out, hidden, `closed` emitted. */
    method CloseAnimatedIntended() returns (closed: bool)
      modifies this`visible, this`opacity
      ensures !visible && opacity == 0 && closed
    {
      visible, opacity, closed := false, 0, true;
    }

    /** `show_tooltip_at` as written: placed and shown, transparent after the fade-in's start. */
    method ShowTooltipAt(pos: Point, screen: Rect, w: int, h: int)
      modifies this`position, this`visible, this`opacity
      ensures visible && opacity == 0 && position == TooltipAt(pos, screen, w, h)
    {
      position := TooltipAt(pos, screen, w, h);
      visible, opacity := true, 0;
    }

    /** `show_tooltip_at` with the intended fade-in: seen at its place. */
    method ShowTooltipAtIntended(pos: Point, screen: Rect, w: int, h: int)
      modifies this`position, this`visible, this`opacity
      ensures Seen() && position == TooltipAt(pos, screen, w, h)
    {
      position := TooltipAt(pos, screen, w, h);
      visible, opacity := true, 100;
    }

    /** `show_for_widget` as written: placed beside the widget and shown, transparent. */
    method ShowForWidget(origin: Point, ww: int, wh: int, placement: string, w: int, h: int)
      modifies this`position, this`visible, this`opacity
      ensures visible && opacity == 0 && position == ForWidgetPoint(placement, origin, ww, wh, w, h)
    {
      position := ForWidgetPoint(placement, origin, ww, wh, w, h);
      visible, opacity := true, 0;
    }

    /** `show_for_widget` with the intended fade-in: seen beside the widget. */
    method ShowForWidgetIntended(origin: Point, ww: int, wh: int, placement: string, w: int, h: int)
      modifies this`position, this`visible, this`opacity
      ensures Seen() && position == ForWidgetPoint(placement, origin, ww, wh, w, h)
    {
      position := ForWidgetPoint(placement, origin, ww, wh, w, h);
      visible, opacity := true, 100;
    }

    /** `set_text`: stored, but shown only when the tooltip was built with a text label. */
    method SetText(t: string)
      modifies this`text, this`textShown
      ensures text == t
      ensures textShown == if hasTextLabel then t else old(textShown)
    {
      text := t;
      if hasTextLabel {
        textShown := t;
      }
    }

    /** `set_icon`: stored, but shown only when the tooltip was built with an icon label. */
    method SetIcon(i: string)
      modifies this`icon, this`iconShown
      ensures icon == Some(i)
      ensures iconShown == if hasIconLabel then i else old(iconShown)
    {
      icon := Some(i);
      if hasIconLabel {
        iconShown := i;
      }
    }
  }

  /**
   * `TooltipManager` as written: a plain Python class, not a QObject.
   * `installEventFilter` and `removeEventFilter` accept only a QObject and
   * raise TypeError, so the event filter is never installed, no hover
   * timer starts and the manager never shows a tooltip.
   */
  class TooltipManager {
    /** Each covered widget's tooltip, the delay of each pending hover timer, and the tooltip on screen. */
    var tooltips: map<nat, TooltipWidget>
    var timers: map<nat, int>
    var current: Option<TooltipWidget>

    /** Nothing is ever hovered: no hover timer runs and no tooltip is current. */
    predicate Idle()
      reads this
    {
      timers == map[] && current == None
    }

    constructor ()
      ensures Idle() && tooltips == map[]
    {
      tooltips, timers, current := map[], map[], None;
    }

    /**
     * `set_tooltip` as written. For a covered widget `remove_tooltip`
     * raises first and the old tooltip stays; otherwise the new tooltip is
     * stored and `installEventFilter` raises after it.
     */
    method SetTooltip(w: nat, text: string, icon: Option<string>, delay: int) returns (typeError: bool)
      requires Idle()
      modifies this`tooltips
      ensures Idle() && typeError
      ensures w in old(tooltips) ==> tooltips == old(tooltips)
      ensures w !in old(tooltips) ==>
                w in tooltips && fresh(tooltips[w]) && tooltips[w].text == text && tooltips[w].delay == delay
                && tooltips - {w} == old(tooltips)
    {
      if w in tooltips {
        typeError := RemoveTooltip(w);
        return;
      }
      var t := new TooltipWidget(text, icon, delay);
      tooltips := tooltips[w := t];
      typeError := true;
    }

    /**
     * `remove_tooltip` as written: for a covered widget `removeEventFilter`
     * raises before the tooltip is dropped; for any other there is no hover
     * timer to stop either, so nothing changes.
     */
    method RemoveTooltip(w: nat) returns (typeError: bool)
      requires Idle()
      ensures typeError <==> w in tooltips
    {
      typeError := w in tooltips;
    }
  }

  /**
   * As written the manager cannot replace a tooltip and never shows one:
   * the first `set_tooltip` stores "Save" and raises, the second raises
   * before replacing it, and nothing is current.
   */
  method ManagerNeverShows() returns (firstError: bool, secondError: bool, text: string, shown: Option<TooltipWidget>)
    ensures firstError && secondError && text == "Save" && shown == None
  {
    var m := new TooltipManager();
    firstError := m.SetTooltip(1, "Save", None, 500);
    secondError := m.SetTooltip(1, "Save file", None, 500);
    text := m.tooltips[1].text;
    shown := m.current;
  }

  /**
   * The manager as meant: a QObject whose event filter sees the covered
   * widgets' Enter and Leave events, with tooltips whose fades complete.
   */
  class TooltipManagerIntended {
    /** Each covered widget's tooltip, and the delay of each pending hover timer. */
    var tooltips: map<nat, TooltipWidget>
    var timers: map<nat, int>
    var current: Option<TooltipWidget>
    /** Every tooltip the manager has made. */
    ghost var made: set<TooltipWidget>

    /** Only the current tooltip may be on screen, and timers run only for covered widgets. */
    ghost predicate Valid()
      reads this, made
    {
      && (forall t :: t in made && t.visible ==> current == Some(t))
      && (current.Some? ==> current.value in made)
      && (forall w :: w in tooltips ==> tooltips[w] in made)
      && (forall w :: w in timers ==> w in tooltips)
    }

    constructor ()
      ensures Valid() && tooltips == map[] && timers == map[] && current == None
    {
      tooltips, timers, current, made := map[], map[], None, {};
    }

    function CurrentSet(): set<TooltipWidget>
      reads this
    {
      if current.Some? then {current.value} else {}
    }

    /** `remove_tooltip`: the widget's tooltip and hover timer dropped; the current tooltip is left as it is. */
    method RemoveTooltip(w: nat)
      requires Valid()
      modifies this
      ensures Valid()
      ensures tooltips == old(tooltips) - {w} && timers == old(timers) - {w}
      ensures current == old(current) && made == old(made)
    {
      tooltips := tooltips - {w};
      timers := timers - {w};
    }

    /** `set_tooltip`: a new, hidden tooltip replaces any the widget had. */
    method SetTooltip(w: nat, text: string, icon: Option<string>, delay: int)
      requires Valid()
      modifies this
      ensures Valid()
      ensures w in tooltips && fresh(tooltips[w]) && tooltips[w].text == text && tooltips[w].delay == delay
      ensures forall v :: v != w ==> (v in tooltips <==> v in old(tooltips))
      ensures forall v :: v != w && v in tooltips ==> tooltips[v] == old(tooltips)[v]
      ensures timers == old(timers) - {w} && current == old(current)
    {
      RemoveTooltip(w);
      var t := new TooltipWidget(text, icon, delay);
      tooltips := tooltips[w := t];
      made := made + {t};
    }

    /** The pointer enters a covered widget: its hover timer starts with the tooltip's delay. */
    method Enter(w: nat)
      requires Valid()
      modifies this`timers
      ensures Valid()
      ensures timers == if w in tooltips then old(timers)[w := tooltips[w].delay] else old(timers)
    {
      if w in tooltips {
        timers := timers[w := tooltips[w].delay];
      }
    }

    /** `_hide_current_tooltip`, with the fade-out completing. */
    method HideCurrent()
      requires Valid()
      modifies this`current, CurrentSet()
      ensures Valid() && current == None
      ensures old(current).Some? ==> !old(current).value.visible
    {
      if current.Some? {
        var _ := current.value.CloseAnimatedIntended();
        current := None;
      }
    }

    /** The pointer leaves a covered widget: its hover timer stops and the current tooltip is hidden. */
    method Leave(w: nat)
      requires Valid()
      modifies this`timers, this`current, CurrentSet()
      ensures Valid()
      ensures w in tooltips ==> timers == old(timers) - {w} && current == None
      ensures w in tooltips && old(current).Some? ==> !old(current).value.visible
      ensures w !in tooltips ==> timers == old(timers) && current == old(current)
    {
      if w in tooltips {
        timers := timers - {w};
        HideCurrent();
      }
    }

    /**
     * The hover timer of `w` fires (`_show_tooltip`): the current tooltip
     * is hidden and `w`'s is seen above the widget and becomes current,
     * so only one is ever on screen. The fired timer stays listed.
     */
    method HoverTimerFires(w: nat, origin: Point, ww: int, wh: int, tw: int, th: int)
      requires Valid() && w in timers
      modifies this`current, CurrentSet(), tooltips[w]
      ensures Valid()
      ensures current == Some(tooltips[w]) && tooltips[w].Seen()
      ensures tooltips[w].position == ForWidgetPoint("top", origin, ww, wh, tw, th)
      ensures old(current).Some? && old(current) != current ==> !old(current).value.visible
    {
      HideCurrent();
      var t := tooltips[w];
      t.ShowForWidgetIntended(origin, ww, wh, "top", tw, th);
      current := Some(t);
    }
  }

  /** With the intended manager, hovering one widget and then another leaves only the second tooltip on screen. */
  method OneTooltipAtATimeIntended() returns (firstShown: bool, secondShown: bool)
    ensures !firstShown && secondShown
  {
    var m := new TooltipManagerIntended();
    m.SetTooltip(1, "Save", None, 500);
    m.SetTooltip(2, "Open", None, 500);
    var first := m.tooltips[1];
    m.Enter(1);
    m.HoverTimerFires(1, Point(0, 0), 80, 30, 60, 24);
    m.Enter(2);
    m.HoverTimerFires(2, Point(100, 0), 80, 30, 60, 24);
    firstShown, secondShown := first.visible, m.tooltips[2].visible;
  }
}
