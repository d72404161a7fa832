/**
 * Snackbars: a bar with a message, an optional action button and a close
 * button that slides up at the bottom centre of the screen and slides out
 * again, closing itself after its duration. A manager shows one at a time
 * and queues the others. Both slide animations are local variables that
 * are deleted before they run, so as written a snackbar rests below the
 * available screen area and never closes; the intended members take the
 * animations at their end state. The screen size is a parameter.
 */
module Snackbar {
  import opened Common
  import opened BasePopup

  /** What the manager keeps of a snackbar it is asked to show. */
  datatype SnackbarInfo = SnackbarInfo(message: string, actionText: string, duration: int)

  /** `show_undo_snackbar`: an "UNDO" action, 4000 ms unless told otherwise. */
  function UndoInfo(message: string, duration: int := 4000): (i: SnackbarInfo)
    ensures i.message == message && i.actionText == "UNDO" && i.duration == duration
  {
    SnackbarInfo(message, "UNDO", duration)
  }

  /** `show_retry_snackbar`: a "RETRY" action, 6000 ms unless told otherwise. */
  function RetryInfo(message: string, duration: int := 6000): (i: SnackbarInfo)
    ensures i.message == message && i.actionText == "RETRY" && i.duration == duration
  {
    SnackbarInfo(message, "RETRY", duration)
  }

  /** The presets differ only in their action and default duration. */
  lemma PresetDefaults(message: string)
    ensures UndoInfo(message).duration == 4000 && RetryInfo(message).duration == 6000
    ensures UndoInfo(message).actionText != RetryInfo(message).actionText
  {
  }

  /** Where a shown snackbar comes to rest: centred horizontally, 80 pixels above the bottom of the screen. */
  function RestingPosition(screenW: int, screenH: int, w: int): (p: Point)
    ensures 2 * p.x <= screenW - w < 2 * p.x + 2
    ensures p.y + 80 == screenH
  {
    Point((screenW - w) / 2, screenH - 80)
  }

  datatype SnackStyle = SnackStyle(bg: string, text: string, action: string)

  /** The plain snackbar's colours: dark, white text, a primary action. */
  const PlainStyle := SnackStyle("dark", "white", "primary")

  /** `CustomSnackbar`'s style table; an unknown style is "default", which looks like a plain snackbar. */
  function CustomStyle(style: string): (s: SnackStyle)
    ensures style in {"success", "warning", "info"} ==> s == SnackStyle(style, "white", "white")
    ensures style == "error" ==> s == SnackStyle("danger", "white", "white")
    ensures style !in {"success", "warning", "error", "info"} ==> s == PlainStyle
  {
    if style in {"success", "warning", "info"} then SnackStyle(style, "white", "white")
    else if style == "error" then SnackStyle("danger", "white", "white")
    else PlainStyle
  }

  /** A multi-action button: its text and whether its callback is callable. */
  datatype MultiAction = MultiAction(text: string, callable: bool)

  function ActionTexts(actions: seq<MultiAction>): (r: seq<string>)
    ensures |r| == |actions|
  {
    seq(|actions|, i requires 0 <= i < |actions| => actions[i].text)
  }

  /** `SnackbarWidget` and its subclasses. */
  datatype Kind = Plain | Custom | Persistent | Progress | MultiActions

  class SnackbarWidget {
    const kind: Kind
    var message: string
    var actionText: string
    const duration: int
    /** Whether an action button was made: only for an action text given at construction. */
    const hasActionButton: bool
    var actionButtonText: string
    /** The auto-dismiss delay, armed at construction for a positive duration. */
    const autoDismiss: Option<int>
    var style: SnackStyle
    var position: Point
    var visible: bool
    /** `ProgressSnackbar`'s progress as given, and the bar's value, which Qt keeps within 0 to 100. */
    var progress: int
    var barValue: int
    /** `MultiActionSnackbar`'s actions. */
    const actions: seq<MultiAction>

    /** `SnackbarWidget(message, action_text, duration)`: hidden until shown. */
    constructor (message0: string, actionText0: string, duration0: int)
      ensures kind == Plain && message == message0 && actionText == actionText0 && duration == duration0
      ensures hasActionButton == (actionText0 != "") && actionButtonText == actionText0
      ensures autoDismiss == (if duration0 > 0 then Some(duration0) else None)
      ensures style == PlainStyle && !visible && actions == []
    {
      kind, message, actionText, duration := Plain, message0, actionText0, duration0;
      hasActionButton, actionButtonText := actionText0 != "", actionText0;
      autoDismiss := if duration0 > 0 then Some(duration0) else None;
      style, position, visible := PlainStyle, Point(0, 0), false;
      progress, barValue, actions := 0, 0, [];
    }

    /** `CustomSnackbar(message, action_text, duration, style)`. */
    constructor Styled(message0: string, actionText0: string, duration0: int, styleName: string)
      ensures kind == Custom && message == message0 && actionText == actionText0 && duration == duration0
      ensures hasActionButton == (actionText0 != "") && actionButtonText == actionText0
      ensures autoDismiss == (if duration0 > 0 then Some(duration0) else None)
      ensures style == CustomStyle(styleName) && !visible && actions == []
    {
      kind, message, actionText, duration := Custom, message0, actionText0, duration0;
      hasActionButton, actionButtonText := actionText0 != "", actionText0;
      autoDismiss := if duration0 > 0 then Some(duration0) else None;
      style, position, visible := CustomStyle(styleName), Point(0, 0), false;
      progress, barValue, actions := 0, 0, [];
    }

    /** `PersistentSnackbar(message, action_text)`: duration 0, so it never closes by itself. */
    constructor Sticky(message0: string, actionText0: string)
      ensures kind == Persistent && message == message0 && actionText == actionText0 && duration == 0
      ensures hasActionButton == (actionText0 != "") && autoDismiss == None
      ensures style == PlainStyle && !visible && actions == []
    {
      kind, message, actionText, duration := Persistent, message0, actionText0, 0;
      hasActionButton, actionButtonText := actionText0 != "", actionText0;
      autoDismiss := None;
      style, position, visible := PlainStyle, Point(0, 0), false;
      progress, barValue, actions := 0, 0, [];
    }

    /** `ProgressSnackbar(message)`: no action, no auto-dismiss, progress 0. */
    constructor WithProgress(message0: string)
      ensures kind == Progress && message == message0 && actionText == "" && !hasActionButton
      ensures autoDismiss == None && progress == 0 && barValue == 0 && !visible && actions == []
    {
      kind, message, actionText, duration := Progress, message0, "", 0;
      hasActionButton, actionButtonText := false, "";
      autoDismiss := None;
      style, position, visible := PlainStyle, Point(0, 0), false;
      progress, barValue, actions := 0, 0, [];
    }

    /** `MultiActionSnackbar(message, actions, duration)`: a button per action, no single action. */
    constructor WithActions(message0: string, actions0: seq<MultiAction>, duration0: int)
      ensures kind == MultiActions && message == message0 && actionText == "" && !hasActionButton
      ensures actions == actions0 && autoDismiss == (if duration0 > 0 then Some(duration0) else None)
      ensures !visible
    {
      kind, message, actionText, duration := MultiActions, message0, "", duration0;
      hasActionButton, actionButtonText := false, "";
      autoDismiss := if duration0 > 0 then Some(duration0) else None;
      style, position, visible := PlainStyle, Point(0, 0), false;
      progress, barValue, actions := 0, 0, actions0;
    }

    /**
     * The buttons from left to right after the message: the action (or
     * the multi-actions, inserted in turn before the close button), then "×".
     */
    function Buttons(): (r: seq<string>)
      reads this
      ensures |r| >= 1 && r[|r| - 1] == "×"
      ensures hasActionButton ==> r == [actionButtonText, "×"]
      ensures !hasActionButton ==> r[..|r| - 1] == ActionTexts(actions)
    {
      if hasActionButton then [actionButtonText, "×"] else ActionTexts(actions) + ["×"]
    }

    /**
     * `show_snackbar` as written: moved to the bottom edge of the available
     * screen area and shown. The slide-up animation is a local variable,
     * deleted when the method returns; its start has already put the bar
     * at that edge, 80 pixels below where it should rest, and it goes no
     * further.
     */
    method Show(screenW: int, screenH: int, w: int)
      modifies this`position, this`visible
      ensures visible && position == Point(RestingPosition(screenW, screenH, w).x, screenH)
      ensures position.y == RestingPosition(screenW, screenH, w).y + 80
    {
      position, visible := Point(RestingPosition(screenW, screenH, w).x, screenH), true;
    }

    /** The intended `show_snackbar`: shown and slid up to rest at the bottom centre. */
    method ShowIntended(screenW: int, screenH: int, w: int)
      modifies this`position, this`visible
      ensures visible && position == RestingPosition(screenW, screenH, w)
    {
      position, visible := RestingPosition(screenW, screenH, w), true;
    }

    /**
     * `close_animated` as written: the slide-down animation is a local
     * variable, deleted when the method returns, so its `finished` never
     * fires. Its start value is the current geometry, so nothing moves,
     * the snackbar stays open and `closed` is not emitted.
     */
    method CloseAnimated(screenH: int) returns (closed: bool)
      ensures !closed
    {
      closed := false;
    }

    /** The intended `close_animated`: slid below the screen, closed, and `closed` emitted. */
    method CloseAnimatedIntended(screenH: int) returns (closed: bool)
      modifies this`position, this`visible
      ensures !visible && position == Point(old(position).x, screenH) && closed
    {
      position, visible, closed := Point(position.x, screenH), false, true;
    }

    /** The action button: `action_clicked`, then `close_animated`, which as written leaves the snackbar open. */
    method ClickAction(screenH: int) returns (actionClicked: bool, closed: bool)
      requires hasActionButton
      ensures actionClicked && !closed
    {
      actionClicked := true;
      closed := CloseAnimated(screenH);
    }

    /** The action button with the intended close: `action_clicked`, then the snackbar closes. */
    method ClickActionIntended(screenH: int) returns (actionClicked: bool, closed: bool)
      requires hasActionButton
      modifies this`position, this`visible
      ensures actionClicked && closed && !visible
    {
      actionClicked := true;
      closed := CloseAnimatedIntended(screenH);
    }

    /** A multi-action button: its callback runs when callable, then `close_animated`, which as written leaves the snackbar open. */
    method ClickMultiAction(i: nat, screenH: int) returns (calledBack: bool, closed: bool)
      requires i < |actions|
      ensures calledBack == actions[i].callable && !closed
    {
      calledBack := actions[i].callable;
      closed := CloseAnimated(screenH);
    }

    /** A multi-action button with the intended close: its callback runs when callable, then the snackbar closes. */
    method ClickMultiActionIntended(i: nat, screenH: int) returns (calledBack: bool, closed: bool)
      requires i < |actions|
      modifies this`position, this`visible
      ensures calledBack == actions[i].callable && closed && !visible
    {
      calledBack := actions[i].callable;
      closed := CloseAnimatedIntended(screenH);
    }

    method SetMessage(m: string)
      modifies this`message
      ensures message == m
    {
      message := m;
    }

    /** `set_action_text`: stored; it reaches the button only when there is one. */
    method SetActionText(t: string)
      modifies this`actionText, this`actionButtonText
      ensures actionText == t
      ensures actionButtonText == if hasActionButton then t else old(actionButtonText)
    {
      actionText := t;
      if hasActionButton {
        actionButtonText := t;
      }
    }

    /**
     * `set_progress`: stored as given; the bar takes it only within 0 to
     * 100, and reaching 100 schedules the close.
     */
    method SetProgress(p: int) returns (closeScheduled: bool)
      requires kind == Progress
      modifies this`progress, this`barValue
      ensures progress == p
      ensures barValue == if 0 <= p <= 100 then p else old(barValue)
      ensures closeScheduled <==> p >= 100
    {
      progress := p;
      if 0 <= p <= 100 {
        barValue := p;
      }
      closeScheduled := p >= 100;
    }
  }

  /** Every snackbar the manager made is on screen exactly when it is the current one. */
  predicate OneOnScreen(current: Option<nat>, onScreen: seq<bool>) {
    (current.Some? ==> current.value < |onScreen|)
    && forall i :: 0 <= i < |onScreen| ==> (onScreen[i] <==> current == Some(i))
  }

  /**
   * `SnackbarManager`: the current snackbar and a queue of waiting ones.
   * Every snackbar it made is kept (by index) with whether it is on
   * screen; a snackbar's `closed` fires each time its close completes,
   * whether from its close or action button, its auto-dismiss timer or
   * `close_current`.
   */
  class SnackbarManager {
    var queue: seq<SnackbarInfo>
    var current: Option<nat>
    var made: seq<SnackbarInfo>
    var onScreen: seq<bool>

    /** Nothing waits while nothing is shown, and the current snackbar is one that was made. */
    ghost predicate Valid()
      reads this
    {
      |onScreen| == |made| && (current.None? ==> queue == []) && (current.Some? ==> current.value < |made|)
    }

    constructor ()
      ensures Valid() && queue == [] && current == None && made == [] && onScreen == []
      ensures OneOnScreen(current, onScreen)
    {
      queue, current, made, onScreen := [], None, [], [];
    }

    /** `_show_next_snackbar`: a new snackbar becomes current and is shown. */
    method ShowNext(info: SnackbarInfo)
      modifies this`current, this`made, this`onScreen
      ensures made == old(made) + [info] && onScreen == old(onScreen) + [true]
      ensures current == Some(|old(made)|)
    {
      current := Some(|made|);
      made, onScreen := made + [info], onScreen + [true];
    }

    /** `show_snackbar`: shown at once when none is current, otherwise queued at the back. */
    method ShowSnackbar(info: SnackbarInfo)
      requires Valid()
      modifies this
      ensures Valid()
      ensures OneOnScreen(old(current), old(onScreen)) ==> OneOnScreen(current, onScreen)
      ensures old(current).None? ==> current == Some(|old(made)|) && made == old(made) + [info]
                                     && onScreen == old(onScreen) + [true] && queue == old(queue)
      ensures old(current).Some? ==> queue == old(queue) + [info] && current == old(current)
                                     && made == old(made) && onScreen == old(onScreen)
    {
      if current.None? {
        ShowNext(info);
      } else {
        queue := queue + [info];
      }
    }

    /**
     * Snackbar `id` finished closing, as written: `_on_snackbar_closed`
     * does not ask which snackbar closed, so it always forgets the current
     * one and shows the front of the queue.
     */
    method SnackbarClosed(id: nat)
      requires Valid() && id < |made|
      modifies this
      ensures Valid() && |made| >= |old(made)|
      ensures onScreen[..|old(made)|] == old(onScreen)[id := false][..|old(made)|]
      ensures old(queue) == [] ==> current == None && queue == [] && made == old(made)
      ensures old(queue) != [] ==> current == Some(|old(made)|) && queue == old(queue)[1..]
                                   && made == old(made) + [old(queue)[0]] && onScreen[|old(made)|]
    {
      onScreen := onScreen[id := false];
      current := None;
      if queue != [] {
        var next := queue[0];
        queue := queue[1..];
        ShowNext(next);
      }
    }

    /** The intended handler: only the current snackbar's closing moves the queue on. */
    method SnackbarClosedIntended(id: nat)
      requires Valid() && id < |made| && OneOnScreen(current, onScreen)
      modifies this
      ensures Valid() && OneOnScreen(current, onScreen)
      ensures old(current) != Some(id) ==> current == old(current) && queue == old(queue) && made == old(made)
      ensures old(current) == Some(id) && old(queue) == [] ==> current == None && made == old(made)
      ensures old(current) == Some(id) && old(queue) != [] ==>
                current == Some(|old(made)|) && queue == old(queue)[1..] && made == old(made) + [old(queue)[0]]
    {
      onScreen := onScreen[id := false];
      if current == Some(id) {
        current := None;
        if queue != [] {
          var next := queue[0];
          queue := queue[1..];
          ShowNext(next);
        }
      }
    }

    /** `clear_queue`: the waiting snackbars are dropped; the current one stays. */
    method ClearQueue()
      requires Valid()
      modifies this`queue
      ensures Valid() && queue == []
    {
      queue := [];
    }

    /**
     * `close_current` as written: the current snackbar's `close_animated`
     * never completes, so `closed` never reaches the manager and the
     * current snackbar stays current.
     */
    method CloseCurrent() returns (stillCurrent: Option<nat>)
      requires Valid()
      ensures stillCurrent == current
    {
      stillCurrent := current;
    }

    /** `close_current` with the intended close: the current snackbar closes, which moves the queue on. */
    method CloseCurrentIntended()
      requires Valid()
      modifies this
      ensures Valid()
      ensures old(current).None? ==> current == None && queue == old(queue) && made == old(made) && onScreen == old(onScreen)
      ensures old(current).Some? && old(queue) != [] ==> current == Some(|old(made)|) && queue == old(queue)[1..]
      ensures old(current).Some? && old(queue) == [] ==> current == None
    {
      if current.Some? {
        SnackbarClosed(current.value);
      }
    }

    /** `get_queue_length`. */
    function QueueLength(): (n: nat)
      reads this
      ensures n == |queue|
    {
      |queue|
    }
  }

  /**
   * As written no close of a snackbar completes, neither by `close_current`
   * nor by its buttons or its timer: the first snackbar stays current and
   * everything shown after it waits in the queue for good.
   */
  method QueueStuck() returns (current: Option<nat>, waiting: nat)
    ensures current == Some(0) && waiting == 1
  {
    var m := new SnackbarManager();
    m.ShowSnackbar(SnackbarInfo("a", "", 4000));
    m.ShowSnackbar(SnackbarInfo("b", "", 4000));
    current := m.CloseCurrent();
    waiting := m.QueueLength();
  }

  /** With the intended close, `close_current` shows "b" and empties the queue. */
  method QueueMovesIntended() returns (current: Option<nat>, waiting: nat)
    ensures current == Some(1) && waiting == 0
  {
    var m := new SnackbarManager();
    m.ShowSnackbar(SnackbarInfo("a", "", 4000));
    m.ShowSnackbar(SnackbarInfo("b", "", 4000));
    m.CloseCurrentIntended();
    current, waiting := m.current, m.QueueLength();
  }

  /**
   * In a snackbar whose close completes (the intended close), a snackbar
   * closed by hand before its auto-dismiss timer fires closes
   * a second time when the timer fires. As written this forgets the next
   * snackbar while it is still on screen, and a third one then shows
   * beside it.
   */
  method StaleTimerShowsTwo() returns (onScreen: seq<bool>)
    ensures onScreen == [false, true, true]
  {
    var m := new SnackbarManager();
    m.ShowSnackbar(SnackbarInfo("a", "", 4000));
    m.ShowSnackbar(SnackbarInfo("b", "", 4000));
    m.SnackbarClosed(0);
    m.SnackbarClosed(0);
    m.ShowSnackbar(SnackbarInfo("c", "", 4000));
    onScreen := m.onScreen;
  }

  /** The same closes with the intended handler leave "b" alone on screen and "c" waiting. */
  method StaleTimerIntended() returns (onScreen: seq<bool>, waiting: nat)
    ensures onScreen == [false, true] && waiting == 1
  {
    var n := new SnackbarManager();
    n.ShowSnackbar(SnackbarInfo("a", "", 4000));
    n.ShowSnackbar(SnackbarInfo("b", "", 4000));
    n.SnackbarClosedIntended(0);
    n.SnackbarClosedIntended(0);
    n.ShowSnackbar(SnackbarInfo("c", "", 4000));
    onScreen, waiting := n.onScreen, n.QueueLength();
  }
}
