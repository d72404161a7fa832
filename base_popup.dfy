/**
 * Popups: placement arithmetic (centred on a parent or the screen, toast
 * corners with 20-pixel margins), the single auto-close timer, and the
 * context menu's ordered action list.
 */
module BasePopup {
  import opened Common

  datatype Rect = Rect(x: int, y: int, w: int, h: int)
  datatype Point = Point(x: int, y: int)

  /**
   * show_centered: centred on the parent's geometry when there is a parent,
   * otherwise on the screen (whose origin is not added). Python's `//` by 2
   * floors, as Dafny's `/` does for a positive divisor.
   */
  function CenteredPosition(parent: Option<Rect>, screen: Rect, w: int, h: int): (p: Point)
    ensures parent.Some? ==> 2 * (p.x - parent.value.x) <= parent.value.w - w < 2 * (p.x - parent.value.x) + 2
    ensures parent.Some? ==> 2 * (p.y - parent.value.y) <= parent.value.h - h < 2 * (p.y - parent.value.y) + 2
    ensures parent.None? ==> 2 * p.x <= screen.w - w < 2 * p.x + 2
    ensures parent.None? ==> 2 * p.y <= screen.h - h < 2 * p.y + 2
  {
    match parent
    case Some(r) => Point(r.x + (r.w - w) / 2, r.y + (r.h - h) / 2)
    case None => Point((screen.w - w) / 2, (screen.h - h) / 2)
  }

  const ToastMargin := 20

  /** show_toast: the four corners keep a 20-pixel margin; any other position is centred. */
  function ToastPosition(position: string, screenW: int, screenH: int, w: int, h: int): (p: Point)
    ensures position == "top-right" ==> p == Point(screenW - w - ToastMargin, ToastMargin)
    ensures position == "top-left" ==> p == Point(ToastMargin, ToastMargin)
    ensures position == "bottom-right" ==> p == Point(screenW - w - ToastMargin, screenH - h - ToastMargin)
    ensures position == "bottom-left" ==> p == Point(ToastMargin, screenH - h - ToastMargin)
    ensures position !in {"top-right", "top-left", "bottom-right", "bottom-left"} ==>
              p == CenteredPosition(None, Rect(0, 0, screenW, screenH), w, h)
  {
    if position == "top-right" then Point(screenW - w - ToastMargin, ToastMargin)
    else if position == "top-left" then Point(ToastMargin, ToastMargin)
    else if position == "bottom-right" then Point(screenW - w - ToastMargin, screenH - h - ToastMargin)
    else if position == "bottom-left" then Point(ToastMargin, screenH - h - ToastMargin)
    else Point((screenW - w) / 2, (screenH - h) / 2)
  }

  /** A toast that fits on the screen lies inside it, wherever it is placed. */
  lemma ToastOnScreen(position: string, screenW: int, screenH: int)
    requires screenW >= ToastWidth + 2 * ToastMargin && screenH >= ToastHeight + 2 * ToastMargin
    ensures var p := ToastPosition(position, screenW, screenH, ToastWidth, ToastHeight);
            0 <= p.x && p.x + ToastWidth <= screenW && 0 <= p.y && p.y + ToastHeight <= screenH
  {
  }

  const ToastWidth := 300
  const ToastHeight := 60

  datatype MenuEntry = Action(text: string, hasCallback: bool) | Separator

  /**
   * A popup. `opacity` is the popup's graphics effect in percent: the drop
   * shadow it is built with draws it fully (100); `fade_in` and `fade_out`
   * replace it with an opacity effect. Both keep their animation only in
   * a local variable, so it is deleted when they return: the start value,
   * which `start()` has already applied, is where it stays, and a callback
   * connected to `finished` never runs.
   */
  class Popup {
    const modal: bool
    /** The delay of the one pending auto-close timer, if any. */
    var autoCloseTimer: Option<int>
    var position: Point
    var visible: bool
    var opacity: int

    constructor (modal0: bool)
      ensures modal == modal0 && autoCloseTimer == None && !visible && opacity == 100
    {
      modal := modal0;
      autoCloseTimer := None;
      position := Point(0, 0);
      visible := false;
      opacity := 100;
    }

    /** Whether anything of the popup can be seen: shown and not fully transparent. */
    predicate Seen()
      reads this
    {
      visible && opacity > 0
    }

    /** `show_at_position` as written: moved and shown, then `fade_in` leaves it fully transparent. */
    method ShowAtPosition(x: int, y: int)
      modifies this`position, this`visible, this`opacity
      ensures position == Point(x, y) && visible && opacity == 0
      ensures !Seen()
    {
      position := Point(x, y);
      visible := true;
      opacity := 0;
    }

    /** The intended `show_at_position`: moved, shown, and faded in to full opacity. */
    method ShowAtPositionIntended(x: int, y: int)
      modifies this`position, this`visible, this`opacity
      ensures position == Point(x, y) && visible && opacity == 100
      ensures Seen()
    {
      position := Point(x, y);
      visible := true;
      opacity := 100;
    }

    /** `show_centered` as written: shown, transparent, at the centred position. */
    method ShowCentered(parent: Option<Rect>, screen: Rect, w: int, h: int)
      modifies this`position, this`visible, this`opacity
      ensures position == CenteredPosition(parent, screen, w, h) && visible && opacity == 0
    {
      var p := CenteredPosition(parent, screen, w, h);
      ShowAtPosition(p.x, p.y);
    }

    /** `show_centered` with the intended fade-in: seen at the centred position. */
    method ShowCenteredIntended(parent: Option<Rect>, screen: Rect, w: int, h: int)
      modifies this`position, this`visible, this`opacity
      ensures position == CenteredPosition(parent, screen, w, h) && Seen()
    {
      var p := CenteredPosition(parent, screen, w, h);
      ShowAtPositionIntended(p.x, p.y);
    }

    /** A new auto-close timer replaces (after stopping) any pending one, so at most one is pending. */
    method AutoClose(delayMs: int) returns (stoppedPrevious: bool)
      modifies this`autoCloseTimer
      ensures stoppedPrevious == old(autoCloseTimer).Some?
      ensures autoCloseTimer == Some(delayMs)
    {
      stoppedPrevious := autoCloseTimer.Some?;
      autoCloseTimer := Some(delayMs);
    }

    /**
     * `close_animated` as written: `fade_out` sets the opacity to its start,
     * full, and its completion callback never runs, so the popup stays
     * shown and `closed` is not emitted.
     */
    method CloseAnimated() returns (closed: bool)
      modifies this`opacity
      ensures opacity == 100 && !closed
    {
      opacity := 100;
      closed := false;
    }

    /** The intended `close_animated`: faded out, closed, and `closed` emitted. */
    method CloseAnimatedIntended() returns (closed: bool)
      modifies this`visible, this`opacity
      ensures !visible && opacity == 0 && closed && !Seen()
    {
      visible, opacity := false, 0;
      closed := true;
    }

    /** Escape asks the popup to close. */
    method KeyPress(isEscape: bool) returns (closeRequested: bool)
      ensures closeRequested == isEscape
    {
      closeRequested := isEscape;
    }

    /** A left click outside the content of a modal popup asks it to close. */
    method MousePress(leftButton: bool, insideContent: bool) returns (closeRequested: bool)
      ensures closeRequested == (modal && leftButton && !insideContent)
    {
      closeRequested := modal && leftButton && !insideContent;
    }
  }

  /** A non-modal popup of 300x60 pixels that starts its auto-close timer on creation. */
  class Toast {
    const message: string
    const duration: int
    const popup: Popup

    constructor (message0: string, duration0: int)
      ensures message == message0 && duration == duration0
      ensures fresh(popup) && !popup.modal && popup.autoCloseTimer == Some(duration0)
    {
      message, duration := message0, duration0;
      var p := new Popup(false);
      var _ := p.AutoClose(duration0);
      popup := p;
    }

    /** `show_toast` as written: placed at its corner (or centred) and shown, transparent. */
    method ShowToast(position: string, screenW: int, screenH: int)
      modifies popup`position, popup`visible, popup`opacity
      ensures popup.visible && popup.opacity == 0
      ensures popup.position == ToastPosition(position, screenW, screenH, ToastWidth, ToastHeight)
    {
      var p := ToastPosition(position, screenW, screenH, ToastWidth, ToastHeight);
      popup.ShowAtPosition(p.x, p.y);
    }

    /** `show_toast` with the intended fade-in: seen at its corner (or centred). */
    method ShowToastIntended(position: string, screenW: int, screenH: int)
      modifies popup`position, popup`visible, popup`opacity
      ensures popup.Seen()
      ensures popup.position == ToastPosition(position, screenW, screenH, ToastWidth, ToastHeight)
    {
      var p := ToastPosition(position, screenW, screenH, ToastWidth, ToastHeight);
      popup.ShowAtPositionIntended(p.x, p.y);
    }
  }

  /**
   * As written a popup is never seen: showing it leaves it transparent,
   * and closing it makes it opaque instead of closing it.
   */
  method PopupNeverSeenThenStuck() returns (seenAfterShow: bool, seenAfterClose: bool, closed: bool)
    ensures !seenAfterShow && seenAfterClose && !closed
  {
    var p := new Popup(true);
    p.ShowAtPosition(10, 10);
    seenAfterShow := p.Seen();
    closed := p.CloseAnimated();
    seenAfterClose := p.Seen();
  }

  /** With the intended fades a popup is seen once shown and gone once closed. */
  method PopupSeenThenClosedIntended() returns (seenAfterShow: bool, seenAfterClose: bool, closed: bool)
    ensures seenAfterShow && !seenAfterClose && closed
  {
    var p := new Popup(true);
    p.ShowAtPositionIntended(10, 10);
    seenAfterShow := p.Seen();
    closed := p.CloseAnimatedIntended();
    seenAfterClose := p.Seen();
  }

  /** A context menu: its actions in call order, and its layout with separators. */
  class ContextMenu {
    var actions: seq<string>
    var entries: seq<MenuEntry>

    constructor ()
      ensures actions == [] && entries == []
    {
      actions, entries := [], [];
    }

    method AddAction(text: string, hasCallback: bool)
      modifies this
      ensures actions == old(actions) + [text]
      ensures entries == old(entries) + [Action(text, hasCallback)]
    {
      entries := entries + [Action(text, hasCallback)];
      actions := actions + [text];
    }

    /** A separator goes into the layout but is not an action. */
    method AddSeparator()
      modifies this`entries
      ensures entries == old(entries) + [Separator]
    {
      entries := entries + [Separator];
    }
  }
}
