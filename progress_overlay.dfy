/**
 * Progress overlays: a translucent cover over a widget holding a box with
 * a spinner, a bar or three animated dots, a message and, optionally, a
 * cancel button; and a manager that keeps at most one overlay per covered
 * widget. Covered widgets are identified by number. The fades keep their
 * animation in a local variable, deleted when they return, so as written
 * a shown overlay stays transparent and a hidden one turns opaque and
 * stays shown; the intended members take each fade at its end. The
 * spinner rotation is not modelled; a timer's firing is a method call.
 */
module ProgressOverlay {
  import opened Common
  import opened BasePopup

  /** `max(0, min(100, progress))`. */
  function ClampProgress(p: int): (r: int)
    ensures 0 <= r <= 100
    ensures 0 <= p <= 100 ==> r == p
    ensures p < 0 ==> r == 0
    ensures p > 100 ==> r == 100
  {
    if p < 0 then 0 else if p > 100 then 100 else p
  }

  /** The indicator `_setup_progress_indicator` puts first in the box; an unknown type gets none. */
  function IndicatorItems(progressType: string): (r: seq<string>)
    ensures |r| <= 1
    ensures r == [] <==> progressType !in {"spinner", "bar", "dots"}
    ensures r != [] ==> r[0] == progressType
  {
    if progressType in {"spinner", "bar", "dots"} then [progressType] else []
  }

  /** The box's items, top to bottom: the indicator, the message, and the cancel button when cancellable. */
  function ContentItems(progressType: string, cancellable: bool): (r: seq<string>)
    ensures |r| == |IndicatorItems(progressType)| + 1 + (if cancellable then 1 else 0)
    ensures "message" in r
    ensures "cancel" in r <==> cancellable
    ensures cancellable ==> r[|r| - 1] == "cancel" && r[|r| - 2] == "message"
    ensures !cancellable ==> r[|r| - 1] == "message"
  {
    IndicatorItems(progressType) + ["message"] + (if cancellable then ["cancel"] else [])
  }

  /** The dot colours after `_animate_dots` highlighted dot `highlight` of `n`. */
  function DotColors(highlight: nat, n: nat): (r: seq<string>)
    ensures |r| == n
    ensures forall i :: 0 <= i < n ==> (r[i] == "primary" <==> i == highlight)
    ensures forall i :: 0 <= i < n && i != highlight ==> r[i] == "text_secondary"
  {
    seq(n, i => if i == highlight then "primary" else "text_secondary")
  }

  /** `QRect.contains(point)`: the point lies on the rectangle or inside it. */
  predicate InRect(r: Rect, p: Point) {
    r.x <= p.x < r.x + r.w && r.y <= p.y < r.y + r.h
  }

  class ProgressOverlayWidget {
    var message: string
    var progressType: string
    var cancellable: bool
    var progress: int
    var visible: bool
    /** Whether the box holds a progress bar, and the bar's value (-1 until first set, as in Qt). */
    var hasBar: bool
    var barValue: int
    /** The spinner rotation or the dots timer is running. */
    var indicatorRunning: bool
    var dotColors: seq<string>
    var currentDot: nat
    /** The box's items, top to bottom. */
    var contentItems: seq<string>
    /** A hide is pending on a 500 ms timer. */
    var hideScheduled: bool
    /** `BlockingProgressOverlay`: grabs keyboard and mouse while shown. */
    var blocking: bool
    var grabbing: bool
    /** The overlay's opacity in percent: drawn fully until a fade replaces its effect. */
    var opacity: int

    ghost predicate Valid()
      reads this
    {
      && 0 <= progress <= 100
      && (progressType == "dots" ==> |dotColors| == 3 && currentDot < 3)
      && (progressType != "dots" ==> dotColors == [])
      && (hasBar <==> progressType == "bar")
    }

    /** `ProgressOverlayWidget(message, progress_type, cancellable)`: hidden, at 0, dots all primary. */
    constructor (message: string, progressType: string, cancellable: bool)
      ensures Valid()
      ensures this.message == message && this.progressType == progressType && this.cancellable == cancellable
      ensures progress == 0 && !visible && !indicatorRunning && !hideScheduled && !blocking && !grabbing
      ensures hasBar == (progressType == "bar") && barValue == -1 && opacity == 100
      ensures dotColors == (if progressType == "dots" then ["primary", "primary", "primary"] else []) && currentDot == 0
      ensures contentItems == ContentItems(progressType, cancellable)
    {
      this.message, this.progressType, this.cancellable := message, progressType, cancellable;
      progress, visible, indicatorRunning, hideScheduled := 0, false, false, false;
      blocking, grabbing, opacity := false, false, 100;
      hasBar, barValue := progressType == "bar", -1;
      dotColors := if progressType == "dots" then ["primary", "primary", "primary"] else [];
      currentDot := 0;
      contentItems := ContentItems(progressType, cancellable);
    }

    /** `SimpleLoadingOverlay`: a spinner, not cancellable. */
    constructor SimpleLoading(message: string)
      ensures Valid()
      ensures this.message == message && progressType == "spinner" && !cancellable && !blocking
      ensures progress == 0 && !visible && !hasBar && dotColors == []
      ensures contentItems == ["spinner", "message"]
    {
      this.message, progressType, cancellable := message, "spinner", false;
      progress, visible, indicatorRunning, hideScheduled := 0, false, false, false;
      blocking, grabbing, opacity := false, false, 100;
      hasBar, barValue, dotColors, currentDot := false, -1, [], 0;
      contentItems := ["spinner", "message"];
    }

    /** `ProgressBarOverlay`: a bar and a cancel button. */
    constructor BarOverlay(message: string)
      ensures Valid()
      ensures this.message == message && progressType == "bar" && cancellable && !blocking
      ensures progress == 0 && !visible && hasBar && barValue == -1
      ensures contentItems == ["bar", "message", "cancel"]
    {
      this.message, progressType, cancellable := message, "bar", true;
      progress, visible, indicatorRunning, hideScheduled := 0, false, false, false;
      blocking, grabbing, opacity := false, false, 100;
      hasBar, barValue, dotColors, currentDot := true, -1, [], 0;
      contentItems := ["bar", "message", "cancel"];
    }

    /**
     * `CustomProgressOverlay`: a spinner overlay whose custom widget, when
     * given, is inserted before the last item of the box, the message.
     */
    constructor Custom(message: string, custom: Option<string>)
      ensures Valid()
      ensures this.message == message && progressType == "spinner" && !cancellable && !blocking
      ensures custom.None? ==> contentItems == ["spinner", "message"]
      ensures custom.Some? ==> contentItems == ["spinner", custom.value, "message"]
    {
      this.message, progressType, cancellable := message, "spinner", false;
      progress, visible, indicatorRunning, hideScheduled := 0, false, false, false;
      blocking, grabbing, opacity := false, false, 100;
      hasBar, barValue, dotColors, currentDot := false, -1, [], 0;
      var items := ContentItems("spinner", false);
      if custom.Some? {
        var at := |items| - 1;
        items := items[..at] + [custom.value] + items[at..];
      }
      contentItems := items;
    }

    /** `BlockingProgressOverlay`: a spinner overlay that captures input while shown. */
    constructor Blocking(message: string)
      ensures Valid()
      ensures this.message == message && progressType == "spinner" && !cancellable && blocking && !grabbing
      ensures progress == 0 && !visible
      ensures contentItems == ["spinner", "message"]
    {
      this.message, progressType, cancellable := message, "spinner", false;
      progress, visible, indicatorRunning, hideScheduled := 0, false, false, false;
      blocking, grabbing, opacity := true, false, 100;
      hasBar, barValue, dotColors, currentDot := false, -1, [], 0;
      contentItems := ["spinner", "message"];
    }

    /** Whether anything of the overlay can be seen: shown and not fully transparent. */
    predicate Seen()
      reads this
    {
      visible && opacity > 0
    }

    /**
     * `show_overlay` as written: shown, the spinner or the dots timer
     * started, input grabbed when blocking, and left fully transparent by
     * the fade-in's start.
     */
    method ShowOverlay()
      modifies this`visible, this`indicatorRunning, this`grabbing, this`opacity
      ensures visible && opacity == 0 && !Seen()
      ensures indicatorRunning == (progressType in {"spinner", "dots"} || old(indicatorRunning))
      ensures grabbing == (blocking || old(grabbing))
    {
      visible, opacity := true, 0;
      if progressType in {"spinner", "dots"} {
        indicatorRunning := true;
      }
      if blocking {
        grabbing := true;
      }
    }

    /** `show_overlay` with the intended fade-in: as written, but seen at full opacity. */
    method ShowOverlayIntended()
      modifies this`visible, this`indicatorRunning, this`grabbing, this`opacity
      ensures visible && opacity == 100 && Seen()
      ensures indicatorRunning == (progressType in {"spinner", "dots"} || old(indicatorRunning))
      ensures grabbing == (blocking || old(grabbing))
    {
      visible, opacity := true, 100;
      if progressType in {"spinner", "dots"} {
        indicatorRunning := true;
      }
      if blocking {
        grabbing := true;
      }
    }

    /**
     * `hide_overlay` as written: the spinner and dots stop and a blocking
     * overlay releases input, but the fade-out only sets full opacity and
     * its `hide` never runs, so the overlay stays shown.
     */
    method HideOverlay()
      modifies this`indicatorRunning, this`grabbing, this`opacity
      ensures !indicatorRunning && opacity == 100
      ensures grabbing == (old(grabbing) && !blocking)
    {
      if blocking {
        grabbing := false;
      }
      indicatorRunning := false;
      opacity := 100;
    }

    /** The intended `hide_overlay`: animations stopped, input released when blocking, faded out and hidden. */
    method HideOverlayIntended()
      modifies this`visible, this`indicatorRunning, this`grabbing, this`opacity
      ensures !visible && !indicatorRunning && opacity == 0 && !Seen()
      ensures grabbing == (old(grabbing) && !blocking)
    {
      if blocking {
        grabbing := false;
      }
      indicatorRunning := false;
      visible, opacity := false, 0;
    }

    method SetMessage(m: string)
      modifies this`message
      ensures message == m
    {
      message := m;
    }

    /**
     * `set_progress`: the value clamped to 0..100 and shown on the bar when
     * there is one; from 100 on a hide is scheduled.
     */
    method SetProgress(p: int) returns (hideQueued: bool)
      requires Valid()
      modifies this`progress, this`barValue, this`hideScheduled
      ensures Valid()
      ensures progress == ClampProgress(p)
      ensures barValue == if hasBar then progress else old(barValue)
      ensures hideQueued <==> p >= 100
      ensures hideScheduled == (old(hideScheduled) || hideQueued)
    {
      progress := ClampProgress(p);
      if hasBar {
        barValue := progress;
      }
      hideQueued := progress >= 100;
      if hideQueued {
        hideScheduled := true;
      }
    }

    /** `get_progress`: always within 0..100. */
    function GetProgress(): (p: int)
      requires Valid()
      reads this
      ensures 0 <= p <= 100
    {
      progress
    }

    /**
     * `_animate_dots`, the dots timer's slot: the current dot highlighted,
     * the others dimmed, and the next dot becomes current. Only a dots
     * overlay has dots; on any other the attribute lookup fails.
     */
    method AnimateDots() returns (attributeError: bool)
      requires Valid()
      modifies this`dotColors, this`currentDot
      ensures Valid()
      ensures attributeError <==> progressType != "dots"
      ensures attributeError ==> dotColors == old(dotColors) && currentDot == old(currentDot)
      ensures !attributeError ==> dotColors == DotColors(old(currentDot), 3) && currentDot == (old(currentDot) + 1) % 3
    {
      if progressType != "dots" {
        return true;
      }
      attributeError := false;
      dotColors := DotColors(currentDot, |dotColors|);
      currentDot := (currentDot + 1) % |dotColors|;
    }

    /**
     * A mouse press: a blocking overlay consumes presses outside its
     * content box; any other press is passed on.
     */
    method MousePress(content: Rect, pos: Point) returns (consumed: bool)
      ensures consumed <==> blocking && !InRect(content, pos)
    {
      consumed := blocking && !InRect(content, pos);
    }
  }

  class ProgressOverlayManager {
    /** The covered widgets in insertion order, and each one's overlay. */
    var widgets: seq<nat>
    var overlays: map<nat, ProgressOverlayWidget>

    ghost predicate Valid()
      reads this
    {
      Distinct(widgets) && forall w :: w in overlays <==> w in widgets
    }

    constructor ()
      ensures Valid() && widgets == [] && overlays == map[]
    {
      widgets, overlays := [], map[];
    }

    /** `is_showing_progress`: whether the widget has an overlay listed. */
    function IsShowingProgress(w: nat): (r: bool)
      requires Valid()
      reads this
      ensures r <==> w in widgets
    {
      w in overlays
    }

    /**
     * `hide_progress` as written: the widget's overlay is unlisted after
     * `hide_overlay`, which leaves it shown and opaque; an unknown widget
     * changes nothing.
     */
    method HideProgress(w: nat)
      requires Valid()
      modifies this, (if w in overlays then {overlays[w]} else {})
      ensures Valid()
      ensures overlays == old(overlays) - {w}
      ensures widgets == RemoveFirst(old(widgets), w)
      ensures w !in old(overlays) ==> widgets == old(widgets)
      ensures w in old(overlays) ==> old(overlays)[w].opacity == 100 && !old(overlays)[w].indicatorRunning
                                     && old(overlays)[w].visible == old(overlays[w].visible)
    {
      if w in overlays {
        overlays[w].HideOverlay();
        Forget(w);
      }
    }

    /** `hide_progress` with the intended fade-out: the widget's overlay hidden and forgotten. */
    method HideProgressIntended(w: nat)
      requires Valid()
      modifies this, (if w in overlays then {overlays[w]} else {})
      ensures Valid()
      ensures overlays == old(overlays) - {w}
      ensures widgets == RemoveFirst(old(widgets), w)
      ensures w !in old(overlays) ==> widgets == old(widgets)
      ensures w in old(overlays) ==> !old(overlays)[w].visible && !old(overlays)[w].indicatorRunning
    {
      if w in overlays {
        overlays[w].HideOverlayIntended();
        Forget(w);
      }
    }

    /** `del self._overlays[w]`. */
    method Forget(w: nat)
      requires Valid() && w in overlays
      modifies this
      ensures Valid() && overlays == old(overlays) - {w} && widgets == RemoveFirst(old(widgets), w)
    {
      RemoveFirstDistinct(widgets, w);
      overlays := overlays - {w};
      widgets := RemoveFirst(widgets, w);
    }

    /**
     * `show_progress` as written: an overlay the widget already has is
     * hidden first (which leaves it shown and opaque); a new overlay,
     * shown but transparent, is listed last for it. So a widget has at
     * most one overlay listed.
     */
    method ShowProgress(w: nat, message: string, progressType: string, cancellable: bool)
      returns (o: ProgressOverlayWidget)
      requires Valid()
      modifies this, (if w in overlays then {overlays[w]} else {})
      ensures Valid() && fresh(o)
      ensures overlays == (old(overlays) - {w})[w := o]
      ensures widgets == RemoveFirst(old(widgets), w) + [w]
      ensures w in old(overlays) ==> old(overlays)[w].opacity == 100 && old(overlays)[w].visible == old(overlays[w].visible)
      ensures o.visible && o.opacity == 0
      ensures o.message == message && o.progressType == progressType && o.cancellable == cancellable
      ensures o.Valid() && o.progress == 0
    {
      HideProgress(w);
      o := new ProgressOverlayWidget(message, progressType, cancellable);
      o.ShowOverlay();
      DistinctSnoc(widgets, w);
      overlays := overlays[w := o];
      widgets := widgets + [w];
    }

    /**
     * `show_progress` with the intended fades: any previous overlay of the
     * widget hidden, and a new one seen and listed last for it.
     */
    method ShowProgressIntended(w: nat, message: string, progressType: string, cancellable: bool)
      returns (o: ProgressOverlayWidget)
      requires Valid()
      modifies this, (if w in overlays then {overlays[w]} else {})
      ensures Valid() && fresh(o)
      ensures overlays == (old(overlays) - {w})[w := o]
      ensures widgets == RemoveFirst(old(widgets), w) + [w]
      ensures w in old(overlays) ==> !old(overlays)[w].visible
      ensures o.Seen() && o.message == message && o.progressType == progressType && o.cancellable == cancellable
      ensures o.Valid() && o.progress == 0
    {
      HideProgressIntended(w);
      o := new ProgressOverlayWidget(message, progressType, cancellable);
      o.ShowOverlayIntended();
      DistinctSnoc(widgets, w);
      overlays := overlays[w := o];
      widgets := widgets + [w];
    }

    /**
     * `update_progress`: the widget's overlay takes the clamped progress,
     * and the message when one is given and non-empty; an unknown widget
     * changes nothing.
     */
    method UpdateProgress(w: nat, p: int, message: Option<string>)
      requires Valid()
      requires w in overlays ==> overlays[w].Valid()
      modifies (if w in overlays then {overlays[w]} else {})
      ensures w in overlays ==> overlays[w].Valid() && overlays[w].progress == ClampProgress(p)
      ensures w in overlays ==> overlays[w].hideScheduled == (old(overlays[w].hideScheduled) || p >= 100)
      ensures w in overlays ==>
        overlays[w].message == if message.Some? && message.value != "" then message.value else old(overlays[w].message)
      ensures w in overlays ==> overlays[w].visible == old(overlays[w].visible)
    {
      if w in overlays {
        var o := overlays[w];
        var _ := o.SetProgress(p);
        if message.Some? && message.value != "" {
          o.SetMessage(message.value);
        }
      }
    }

    /**
     * The 500 ms timer an overlay at 100 scheduled fires, as written: it
     * calls the overlay's own `hide_overlay`, which stops its indicator
     * and makes it opaque without hiding it, and the overlay stays listed.
     */
    method AutoHideFires(w: nat)
      requires Valid() && w in overlays && overlays[w].hideScheduled
      modifies overlays[w]
      ensures !overlays[w].indicatorRunning && overlays[w].opacity == 100
      ensures overlays[w].visible == old(overlays[w].visible)
      ensures IsShowingProgress(w)
    {
      overlays[w].HideOverlay();
    }

    /**
     * `update_progress` as evidently intended: an overlay that reaches 100
     * is hidden through the manager, with its fade-out completing, so it
     * is no longer listed.
     */
    method UpdateProgressIntended(w: nat, p: int, message: Option<string>)
      requires Valid()
      requires w in overlays ==> overlays[w].Valid()
      modifies this, (if w in overlays then {overlays[w]} else {})
      ensures Valid()
      ensures w in old(overlays) && p >= 100 ==> !IsShowingProgress(w) && !old(overlays)[w].visible
      ensures w in old(overlays) && p < 100 ==>
                overlays == old(overlays) && widgets == old(widgets) && overlays[w].progress == ClampProgress(p)
      ensures w !in old(overlays) ==> overlays == old(overlays) && widgets == old(widgets)
    {
      UpdateProgress(w, p, message);
      if w in overlays && p >= 100 {
        HideProgressIntended(w);
      }
    }

    /**
     * `hide_all_progress` as written: `hide_progress` for each widget in
     * insertion order; every overlay is left shown as it was but opaque,
     * with its indicator stopped, and none is left listed.
     */
    method HideAllProgress()
      requires Valid()
      modifies this, overlays.Values
      ensures Valid() && overlays == map[] && widgets == []
      ensures forall w :: w in old(overlays) ==> old(overlays)[w].opacity == 100 && !old(overlays)[w].indicatorRunning
      ensures forall w :: w in old(overlays) ==> old(overlays)[w].visible == old(overlays[w].visible)
    {
      var ws, ov := widgets, overlays;
      ghost var objs := seq(|ws|, k requires 0 <= k < |ws| => ov[ws[k]]);
      var i := 0;
      while i < |ws|
        invariant 0 <= i <= |ws|
        invariant widgets == ws && overlays == ov
        invariant forall k :: 0 <= k < i ==> objs[k].opacity == 100 && !objs[k].indicatorRunning
        invariant forall o :: o in ov.Values ==> o.visible == old(o.visible)
      {
        ov[ws[i]].HideOverlay();
        i := i + 1;
      }
      forall w | w in ov
        ensures ov[w].opacity == 100 && !ov[w].indicatorRunning
      {
        assert ov[w] == objs[IndexOf(ws, w)];
      }
      overlays, widgets := map[], [];
    }

    /**
     * `hide_all_progress` with the intended fade-out: every overlay is
     * hidden and none is left listed.
     */
    method HideAllProgressIntended()
      requires Valid()
      modifies this, overlays.Values
      ensures Valid() && overlays == map[] && widgets == []
      ensures forall w :: w in old(overlays) ==> !old(overlays)[w].visible
    {
      var ws, ov := widgets, overlays;
      ghost var objs := seq(|ws|, k requires 0 <= k < |ws| => ov[ws[k]]);
      var i := 0;
      while i < |ws|
        invariant 0 <= i <= |ws|
        invariant widgets == ws && overlays == ov
        invariant forall k :: 0 <= k < i ==> !objs[k].visible
      {
        ov[ws[i]].HideOverlayIntended();
        i := i + 1;
      }
      forall w | w in ov
        ensures !ov[w].visible
      {
        assert ov[w] == objs[IndexOf(ws, w)];
      }
      overlays, widgets := map[], [];
    }
  }

  /**
   * The manager as written: an overlay is transparent while it runs, and
   * once driven to 100 its own hide makes it opaque instead of hiding it,
   * while the manager still reports progress shown for its widget.
   */
  method CompletedOverlayStillListed() returns (seenWhileRunning: bool, listed: bool, seenAfter: bool)
    ensures !seenWhileRunning && listed && seenAfter
  {
    var m := new ProgressOverlayManager();
    var o := m.ShowProgress(1, "Loading...", "bar", true);
    seenWhileRunning := o.Seen();
    m.UpdateProgress(1, 100, None);
    m.AutoHideFires(1);
    listed, seenAfter := m.IsShowingProgress(1), o.Seen();
  }

  /** With the intended fades and update, the overlay is seen while it runs and then neither listed nor shown. */
  method CompletedOverlayIntended() returns (seenWhileRunning: bool, listed: bool, shown: bool)
    ensures seenWhileRunning && !listed && !shown
  {
    var m := new ProgressOverlayManager();
    var o := m.ShowProgressIntended(1, "Loading...", "bar", true);
    seenWhileRunning := o.Seen();
    m.UpdateProgressIntended(1, 100, None);
    listed, shown := m.IsShowingProgress(1), o.visible;
  }
}
