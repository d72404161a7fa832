/**
 * Cards whose action buttons appear on hover. The actions are kept as an
 * ordered list of (button, name) entries; the action bar is shown on
 * enter and hidden on leave, but only when there are actions and the
 * visibility differs. Its fades keep their animation in a local variable,
 * deleted when they return: as written the bar is transparent once shown,
 * and hiding it makes it opaque instead of hiding it.
 */
module HoverActionCard {
  import opened Common
  import BaseCard

  /** The colour token of a project status; `None` for an unknown status. */
  function ProjectStatusToken(status: string): (t: Option<string>)
    ensures t.Some? <==> status in {"active", "paused", "completed", "cancelled"}
  {
    if status == "active" then Some("success")
    else if status == "paused" then Some("warning")
    else if status == "completed" then Some("info")
    else if status == "cancelled" then Some("danger")
    else None
  }

  /** The status chip's background: the status colour, or the theme's 'light' colour for an unknown status. */
  function ProjectStatusColor(status: string, colors: map<string, string>): (c: string)
    ensures ProjectStatusToken(status).None? && "light" in colors ==> c == colors["light"]
    ensures ProjectStatusToken(status).Some? && ProjectStatusToken(status).value in colors ==>
              c == colors[ProjectStatusToken(status).value]
  {
    var lookup := (t: string) => if t in colors then colors[t] else "#000000";
    match ProjectStatusToken(status)
    case Some(t) => lookup(t)
    case None => lookup("light")
  }

  class HoverActionCardWidget {
    const card: BaseCard.Card
    var title: string
    var subtitle: string
    var actions: seq<Named<ActionButton>>
    /** Whether the action bar in the footer is shown, and its opacity in percent. */
    var actionsVisible: bool
    var actionsOpacity: int

    constructor (title0: string, subtitle0: string)
      ensures fresh(card) && title == title0 && subtitle == subtitle0
      ensures actions == [] && !actionsVisible && actionsOpacity == 100
    {
      card := new BaseCard.Card();
      title, subtitle := title0, subtitle0;
      actions, actionsVisible, actionsOpacity := [], false, 100;
    }

    /** Appends a button whose name is the given one or derived from its text. */
    method AddAction(text: string, name: Option<string>, variant: string)
      modifies this`actions
      ensures actions == old(actions) + [Named(ActionName(text, name), ActionButton(text, variant))]
      ensures Names(actions) == Names(old(actions)) + [ActionName(text, name)]
    {
      actions := actions + [Named(ActionName(text, name), ActionButton(text, variant))];
      assert Names(actions) == Names(old(actions)) + [ActionName(text, name)];
    }

    /** Removes the first action with that name only; the others keep their order. */
    method RemoveAction(name: string)
      modifies this`actions
      ensures actions == RemoveNamed(old(actions), name)
      ensures Names(actions) == RemoveFirst(Names(old(actions)), name)
    {
      var i := FindName(actions, name);
      if i != -1 {
        actions := actions[..i] + actions[i + 1..];
      }
    }

    method ClearActions()
      modifies this`actions
      ensures actions == []
    {
      actions := [];
    }

    /** The action names in insertion order. */
    method GetActions() returns (names: seq<string>)
      ensures names == Names(actions)
      ensures |names| == |actions| && forall i :: 0 <= i < |actions| ==> names[i] == actions[i].name
    {
      names := [];
      var i := 0;
      while i < |actions|
        invariant 0 <= i <= |actions|
        invariant names == Names(actions[..i])
      {
        assert actions[..i + 1] == actions[..i] + [actions[i]];
        NamesAppend(actions[..i], [actions[i]]);
        names := names + [actions[i].name];
        i := i + 1;
      }
      assert actions[..i] == actions;
    }

    /** A click on an action button emits `action_triggered` with its name. */
    method ClickAction(i: int) returns (actionTriggered: string)
      requires 0 <= i < |actions|
      ensures actionTriggered == actions[i].name
    {
      actionTriggered := actions[i].name;
    }

    method SetTitle(t: string)
      modifies this`title
      ensures title == t
    {
      title := t;
    }

    method SetSubtitle(s: string)
      modifies this`subtitle
      ensures subtitle == s
    {
      subtitle := s;
    }

    /** Whether the action bar can be seen: shown and not fully transparent. */
    predicate ActionsSeen()
      reads this
    {
      actionsVisible && actionsOpacity > 0
    }

    /**
     * `_show_actions` as written: unless there are no actions or the bar
     * is already shown, the bar is shown, and the fade-in's start leaves
     * it fully transparent. The slide, kept in a field, completes.
     */
    method ShowActions()
      modifies this`actionsVisible, this`actionsOpacity
      ensures actionsVisible == (old(actionsVisible) || actions != [])
      ensures actionsOpacity == if actions != [] && !old(actionsVisible) then 0 else old(actionsOpacity)
    {
      if actions == [] || actionsVisible {
        return;
      }
      actionsVisible, actionsOpacity := true, 0;
    }

    /** `_show_actions` with the intended fade-in: the bar is shown at full opacity. */
    method ShowActionsIntended()
      modifies this`actionsVisible, this`actionsOpacity
      ensures actionsVisible == (old(actionsVisible) || actions != [])
      ensures actionsOpacity == if actions != [] && !old(actionsVisible) then 100 else old(actionsOpacity)
    {
      if actions == [] || actionsVisible {
        return;
      }
      actionsVisible, actionsOpacity := true, 100;
    }

    /**
     * `_hide_actions` as written: unless there are no actions or the bar
     * is hidden, the fade-out's start makes it fully opaque, and its
     * completion, which would hide it, never runs.
     */
    method HideActions()
      modifies this`actionsOpacity
      ensures actionsOpacity == if actions != [] && actionsVisible then 100 else old(actionsOpacity)
    {
      if actions == [] || !actionsVisible {
        return;
      }
      actionsOpacity := 100;
    }

    /** `_hide_actions` with the intended fade-out: the bar hidden, unless there are no actions or it is already hidden. */
    method HideActionsIntended()
      modifies this`actionsVisible
      ensures actionsVisible == (old(actionsVisible) && actions == [])
    {
      if actions == [] || !actionsVisible {
        return;
      }
      actionsVisible := false;
    }

    /** Entering emits the base card's hover signal and shows the actions, as written. */
    method Enter() returns (hoverEntered: bool)
      modifies this`actionsVisible, this`actionsOpacity
      ensures hoverEntered == card.hoverable
      ensures actionsVisible == (old(actionsVisible) || actions != [])
      ensures actionsOpacity == if actions != [] && !old(actionsVisible) then 0 else old(actionsOpacity)
    {
      hoverEntered := card.Enter();
      ShowActions();
    }

    /** Leaving emits the base card's leave signal and hides the actions, as written. */
    method Leave() returns (hoverLeft: bool)
      modifies this`actionsOpacity
      ensures hoverLeft == card.hoverable
      ensures actionsOpacity == if actions != [] && actionsVisible then 100 else old(actionsOpacity)
    {
      hoverLeft := card.Leave();
      HideActions();
    }
  }

  /**
   * As written a card with an action shows nothing on its first hover,
   * and once the pointer leaves, its action bar is seen and stays: the
   * next hover finds it shown and does nothing.
   */
  method ActionsAppearOnLeave() returns (seenOnEnter: bool, seenOnLeave: bool, seenOnNextEnter: bool)
    ensures !seenOnEnter && seenOnLeave && seenOnNextEnter
  {
    var c := new HoverActionCardWidget("Report", "");
    c.AddAction("Open", None, "primary");
    var _ := c.Enter();
    seenOnEnter := c.ActionsSeen();
    var _ := c.Leave();
    seenOnLeave := c.ActionsSeen();
    var _ := c.Enter();
    seenOnNextEnter := c.ActionsSeen();
  }

  /** With the intended fades the action bar is seen while hovered and gone after. */
  method ActionsFollowHoverIntended() returns (seenOnEnter: bool, seenOnLeave: bool)
    ensures seenOnEnter && !seenOnLeave
  {
    var c := new HoverActionCardWidget("Report", "");
    c.AddAction("Open", None, "primary");
    c.ShowActionsIntended();
    seenOnEnter := c.ActionsSeen();
    c.HideActionsIntended();
    seenOnLeave := c.ActionsSeen();
  }

  /**
   * A media card: its three fixed actions are added on construction and
   * again each time the thumbnail is set.
   */
  class MediaCard {
    const widget: HoverActionCardWidget
    var thumbnail: Option<string>

    static const MediaActions: seq<Named<ActionButton>> :=
      [Named("play", ActionButton("Play", "primary")), Named("share", ActionButton("Share", "secondary")),
       Named("more", ActionButton("More", "ghost"))]

    constructor (title: string, description: string, thumbnail0: Option<string>)
      ensures fresh(widget) && thumbnail == thumbnail0
      ensures widget.title == title && widget.subtitle == description
      ensures widget.actions == MediaActions
    {
      thumbnail := thumbnail0;
      widget := new HoverActionCardWidget(title, description);
      new;
      AddMediaActions();
    }

    method AddMediaActions()
      modifies widget`actions
      ensures widget.actions == old(widget.actions) + MediaActions
    {
      widget.AddAction("Play", Some("play"), "primary");
      widget.AddAction("Share", Some("share"), "secondary");
      widget.AddAction("More", Some("more"), "ghost");
    }

    method SetThumbnail(path: string)
      modifies this`thumbnail, widget`actions
      ensures thumbnail == Some(path)
      ensures widget.actions == old(widget.actions) + MediaActions
    {
      thumbnail := Some(path);
      AddMediaActions();
    }
  }

  /**
   * A project card: a status chip and three fixed actions, rebuilt (and
   * so added again) whenever the status or the progress is set.
   */
  class ProjectCard {
    const widget: HoverActionCardWidget
    var status: string
    var progress: int
    var statusChip: string

    static const ProjectActions: seq<Named<ActionButton>> :=
      [Named("open", ActionButton("Open", "primary")), Named("edit", ActionButton("Edit", "secondary")),
       Named("settings", ActionButton("Settings", "ghost"))]

    constructor (title: string, description: string, status0: string, progress0: int)
      ensures fresh(widget) && status == status0 && progress == progress0
      ensures widget.title == title && widget.subtitle == description
      ensures statusChip == TitleCase(status0)
      ensures widget.actions == ProjectActions
    {
      status, progress, statusChip := status0, progress0, "";
      widget := new HoverActionCardWidget(title, description);
      new;
      SetupProjectUi();
    }

    method SetupProjectUi()
      modifies this`statusChip, widget`actions
      ensures statusChip == TitleCase(status)
      ensures widget.actions == old(widget.actions) + ProjectActions
    {
      statusChip := TitleCase(status);
      widget.AddAction("Open", Some("open"), "primary");
      widget.AddAction("Edit", Some("edit"), "secondary");
      widget.AddAction("Settings", Some("settings"), "ghost");
    }

    method SetStatus(s: string)
      modifies this`status, this`statusChip, widget`actions
      ensures status == s && statusChip == TitleCase(s)
      ensures widget.actions == old(widget.actions) + ProjectActions
    {
      status := s;
      SetupProjectUi();
    }

    method SetProgress(p: int)
      modifies this`progress, this`statusChip, widget`actions
      ensures progress == p && statusChip == TitleCase(status)
      ensures widget.actions == old(widget.actions) + ProjectActions
    {
      progress := p;
      SetupProjectUi();
    }
  }
}
