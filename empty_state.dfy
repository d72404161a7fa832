/**
 * Empty states: a centred placeholder with an optional icon, a title, an
 * optional message and a row of action buttons, and its presets (no
 * data, no search results, error, loading, permission, maintenance,
 * first use, custom).
 *
 * `set_message` and `set_icon` on a placeholder built without that label
 * re-run the UI setup, whose `QVBoxLayout(self)` Qt refuses because the
 * widget already has a layout: the labels and the action container it
 * makes get no parent, and later updates go to them. The labels are never
 * shown; the container is, by the next `add_action`, and a widget with no
 * parent shows as a window of its own, whose buttons still emit
 * `action_clicked`. The model therefore keeps, for each label and for the
 * action container, whether the one the widget refers to is the one on
 * screen, what the screen shows, and how many such separate action
 * windows are open. Icons are text; QIcon pixmaps are not modelled.
 */
module EmptyState {
  import opened Common

  /** Python truthiness of an optional text argument: given and non-empty. */
  predicate Given(x: Option<string>) {
    x.Some? && x.value != ""
  }

  /** Python `s.rstrip(c)` for one character: every trailing `c` removed. */
  function RStripChar(s: string, c: char): (r: string)
    ensures r <= s
    ensures r == [] || r[|r| - 1] != c
    ensures forall i :: |r| <= i < |s| ==> s[i] == c
  {
    if s == [] || s[|s| - 1] != c then s else RStripChar(s[..|s| - 1], c)
  }

  /** `NoDataEmptyState`'s action caption: "Add " and the data type without its trailing s's. */
  function AddCaption(dataType: string): (r: string)
    ensures |r| >= 4 && r[..4] == "Add " && r[4..] <= dataType
    ensures r[4..] == [] || r[|r| - 1] != 's'
  {
    "Add " + RStripChar(dataType, 's')
  }

  /** `rstrip('s')` takes every trailing s, not one: "address" becomes "addre". */
  lemma AddCaptionStripsAllTrailingS()
    ensures AddCaption("items") == "Add item"
    ensures AddCaption("address") == "Add addre"
  {
    assert "items"[..4] == "item";
    assert "address"[..6] == "addres" && "addres"[..5] == "addre" && "addre"[..4] == "addr";
  }

  /** `SearchEmptyState`'s title: the query quoted when one is given. */
  function SearchTitle(query: string): (t: string)
    ensures query != "" ==> t == "No results for '" + query + "'"
    ensures query == "" ==> t == "No search results"
    ensures query != "" ==> t[16..|t| - 1] == query
  {
    if query != "" then "No results for '" + query + "'" else "No search results"
  }

  /** The glyph `_rotate_icon` shows at rotation state `i` of four: the two arrows alternate. */
  function RotationChar(i: nat): (c: string)
    requires i < 4
    ensures i in {0, 2} <==> c == "⟳"
    ensures i in {1, 3} <==> c == "⟲"
  {
    ["⟳", "⟲", "⟳", "⟲"][i]
  }

  /** An entry of `set_content`'s action list: a dict, a list or tuple, or anything else. */
  datatype ActionSpec =
    | DictSpec(text: Option<string>, name: Option<string>, variant: Option<string>)
    | TupleSpec(parts: seq<string>)
    | OtherSpec

  /** The buttons `set_content` adds: dicts with defaults, tuples of at least two parts; the rest skipped. */
  function Requested(specs: seq<ActionSpec>): (r: seq<Named<ActionButton>>)
    ensures |r| <= |specs|
  {
    if specs == [] then []
    else Requested(specs[..|specs| - 1]) + RequestedOne(specs[|specs| - 1])
  }

  function RequestedOne(spec: ActionSpec): (r: seq<Named<ActionButton>>)
    ensures |r| <= 1
    ensures spec.OtherSpec? ==> r == []
    ensures spec.TupleSpec? ==> (|r| == 1 <==> |spec.parts| >= 2)
    ensures spec.DictSpec? ==> |r| == 1
  {
    match spec
    case DictSpec(t, n, v) =>
      var text := if t.Some? then t.value else "";
      [Named(ActionName(text, n), ActionButton(text, if v.Some? then v.value else "primary"))]
    case TupleSpec(p) =>
      if |p| >= 2 then [Named(p[1], ActionButton(p[0], if |p| > 2 then p[2] else "primary"))] else []
    case OtherSpec => []
  }

  /**
   * How many buttons stay on screen when the first action named `name` is
   * removed from `actions`, of which the first `shown` are on screen.
   */
  function ShownAfterRemove(actions: seq<Named<ActionButton>>, shown: nat, name: string): (r: nat)
    requires shown <= |actions|
    ensures r <= |RemoveNamed(actions, name)|
    ensures shown == |actions| ==> r == |RemoveNamed(actions, name)|
    ensures r == if name in Names(actions) && IndexOf(Names(actions), name) < shown then shown - 1 else shown
  {
    if name in Names(actions) && IndexOf(Names(actions), name) < shown then shown - 1 else shown
  }

  class EmptyStateWidget {
    var title: string
    var message: string
    var icon: Option<string>
    /**
     * The actions in order. Buttons added after the UI was set up again go
     * to a container outside the placeholder, so those in it are always the
     * first `shownCount`.
     */
    var actions: seq<Named<ActionButton>>
    var shownCount: nat
    /** Whether the widget has icon and message labels, and whether the ones it refers to are on screen. */
    var hasIconLabel: bool
    var iconLive: bool
    var titleLive: bool
    var hasMessageLabel: bool
    var messageLive: bool
    /** Whether the action container the widget refers to is on screen, and whether it is shown. */
    var containerLive: bool
    var containerShown: bool
    /** What the screen shows. */
    var screenIcon: Option<string>
    var screenTitle: string
    var screenMessage: Option<string>
    var screenContainerShown: bool
    /** Separate action windows left open by containers the widget no longer refers to. */
    var strayWindows: nat
    /** `LoadingEmptyState`'s rotation, and `CustomEmptyState`'s `set_content`. */
    const loading: bool
    var rotation: nat
    const custom: bool

    /** Whatever refers to the screen agrees with it. */
    ghost predicate Valid()
      reads this
    {
      && (titleLive ==> screenTitle == title)
      && (messageLive ==> hasMessageLabel && screenMessage == Some(message))
      && (iconLive ==> hasIconLabel)
      && (containerLive ==> containerShown == screenContainerShown)
      && shownCount <= |actions|
      && (containerLive ==> shownCount == |actions|)
    }

    /** The container the widget refers to has no parent and is shown: a separate top-level window. */
    predicate StrayWindowOpen()
      reads this
    {
      !containerLive && containerShown
    }

    /** Every separate action window open, the current container's included. */
    function OpenStrayWindows(): nat
      reads this
    {
      strayWindows + if StrayWindowOpen() then 1 else 0
    }

    /** `EmptyStateWidget(title, message, icon)`: everything on screen, labels only for a given icon and message. */
    constructor (t: string, m: string, i: Option<string>)
      ensures Valid()
      ensures title == t && message == m && icon == i && actions == []
      ensures hasIconLabel == Given(i) && hasMessageLabel == (m != "")
      ensures iconLive == Given(i) && titleLive && messageLive == (m != "") && containerLive
      ensures screenTitle == t && screenIcon == (if Given(i) then i else None)
      ensures screenMessage == (if m != "" then Some(m) else None)
      ensures !containerShown && !screenContainerShown && !loading && !custom && strayWindows == 0
    {
      title, message, icon, actions := t, m, i, [];
      hasIconLabel, iconLive, titleLive := Given(i), Given(i), true;
      hasMessageLabel, messageLive := m != "", m != "";
      containerLive, containerShown, screenContainerShown := true, false, false;
      screenTitle := t;
      screenIcon := if Given(i) then i else None;
      screenMessage := if m != "" then Some(m) else None;
      shownCount, strayWindows := 0, 0;
      loading, rotation, custom := false, 0, false;
    }

    /** `LoadingEmptyState`: a rotating ⟳ icon. */
    constructor Loading()
      ensures Valid()
      ensures title == "Loading..." && message == "Please wait while we fetch your data." && icon == Some("⟳")
      ensures loading && rotation == 0 && iconLive && screenIcon == Some("⟳") && actions == [] && strayWindows == 0
    {
      title, message, icon, actions := "Loading...", "Please wait while we fetch your data.", Some("⟳"), [];
      hasIconLabel, iconLive, titleLive := true, true, true;
      hasMessageLabel, messageLive := true, true;
      containerLive, containerShown, screenContainerShown := true, false, false;
      screenTitle, screenIcon := "Loading...", Some("⟳");
      screenMessage := Some("Please wait while we fetch your data.");
      shownCount, strayWindows := 0, 0;
      loading, rotation, custom := true, 0, false;
    }

    /** `CustomEmptyState`: empty title and message, no icon. */
    constructor Custom()
      ensures Valid()
      ensures title == "" && message == "" && icon == None && actions == []
      ensures custom && !hasIconLabel && !hasMessageLabel && titleLive && containerLive
      ensures screenIcon == None && screenMessage == None && !screenContainerShown && strayWindows == 0
    {
      title, message, icon, actions := "", "", None, [];
      hasIconLabel, iconLive, titleLive := false, false, true;
      hasMessageLabel, messageLive := false, false;
      containerLive, containerShown, screenContainerShown := true, false, false;
      screenTitle, screenIcon, screenMessage := "", None, None;
      shownCount, strayWindows := 0, 0;
      loading, rotation, custom := false, 0, true;
    }

    /**
     * `add_action`: the button appended under the given or derived name,
     * in the container the widget refers to, which is then shown: in the
     * placeholder, or, after a second setup, as a window of its own.
     */
    method AddAction(caption: string, name: Option<string>, variant: string)
      requires Valid()
      modifies this`actions, this`shownCount, this`containerShown, this`screenContainerShown
      ensures Valid()
      ensures actions == old(actions) + [Named(ActionName(caption, name), ActionButton(caption, variant))]
      ensures Names(actions) == Names(old(actions)) + [ActionName(caption, name)]
      ensures shownCount == if containerLive then |actions| else old(shownCount)
      ensures containerShown
      ensures screenContainerShown == (containerLive || old(screenContainerShown))
      ensures StrayWindowOpen() <==> !containerLive
    {
      var e := Named(ActionName(caption, name), ActionButton(caption, variant));
      NamesAppend(actions, [e]);
      actions := actions + [e];
      if containerLive {
        shownCount, screenContainerShown := |actions|, true;
      }
      containerShown := true;
    }

    /**
     * `remove_action`: the first action of that name removed, nothing for
     * an absent name; a removed button on screen leaves it, and the
     * container is hidden once no action is left.
     */
    method RemoveAction(name: string)
      requires Valid()
      modifies this`actions, this`shownCount, this`containerShown, this`screenContainerShown
      ensures Valid()
      ensures actions == RemoveNamed(old(actions), name)
      ensures Names(actions) == RemoveFirst(Names(old(actions)), name)
      ensures shownCount == ShownAfterRemove(old(actions), old(shownCount), name)
      ensures actions == [] ==> !containerShown && (containerLive ==> !screenContainerShown)
      ensures actions != [] ==> containerShown == old(containerShown) && screenContainerShown == old(screenContainerShown)
    {
      var n := ShownAfterRemove(actions, shownCount, name);
      actions, shownCount := RemoveNamed(actions, name), n;
      if actions == [] {
        containerShown := false;
        if containerLive {
          screenContainerShown := false;
        }
      }
    }

    /** `clear_actions`: no actions, and the container hidden. */
    method ClearActions()
      requires Valid()
      modifies this`actions, this`shownCount, this`containerShown, this`screenContainerShown
      ensures Valid()
      ensures actions == [] && shownCount == 0 && !containerShown
      ensures screenContainerShown == (old(screenContainerShown) && !containerLive)
    {
      actions, shownCount, containerShown := [], 0, false;
      if containerLive {
        screenContainerShown := false;
      }
    }

    /** Clicking action button `i`, in the placeholder or in a separate window, emits its name. */
    method ClickAction(i: nat) returns (emitted: string)
      requires i < |actions|
      ensures emitted == actions[i].name && emitted in Names(actions)
    {
      emitted := actions[i].name;
    }

    method SetTitle(t: string)
      requires Valid()
      modifies this`title, this`screenTitle
      ensures Valid()
      ensures title == t && screenTitle == if titleLive then t else old(screenTitle)
    {
      title := t;
      if titleLive {
        screenTitle := t;
      }
    }

    /**
     * `_setup_ui` run again: new labels for a given icon and message and a
     * new title label and action container, none of them in the
     * placeholder; a label not rebuilt keeps the one referred to before.
     * A separate action window already open stays open.
     */
    method SetupAgain()
      requires Valid()
      modifies this`hasIconLabel, this`iconLive, this`titleLive, this`hasMessageLabel, this`messageLive,
               this`containerLive, this`containerShown, this`strayWindows
      ensures Valid()
      ensures strayWindows == old(OpenStrayWindows()) && OpenStrayWindows() == old(OpenStrayWindows())
      ensures hasIconLabel == (old(hasIconLabel) || Given(icon)) && iconLive == (old(iconLive) && !Given(icon))
      ensures hasMessageLabel == (old(hasMessageLabel) || message != "")
      ensures messageLive == (old(messageLive) && message == "")
      ensures !titleLive && !containerLive && !containerShown
    {
      if Given(icon) {
        hasIconLabel, iconLive := true, false;
      }
      titleLive := false;
      if message != "" {
        hasMessageLabel, messageLive := true, false;
      }
      strayWindows := OpenStrayWindows();
      containerLive, containerShown := false, false;
    }

    /**
     * `set_message`, as written: shown when the message label is on
     * screen; without a message label a non-empty message sets up the UI
     * again, outside the placeholder.
     */
    method SetMessage(m: string)
      requires Valid()
      modifies this`message, this`screenMessage, this`hasIconLabel, this`iconLive, this`titleLive, this`hasMessageLabel, this`messageLive,
               this`containerLive, this`containerShown, this`strayWindows
      ensures Valid()
      ensures message == m
      ensures strayWindows == if !old(hasMessageLabel) && m != "" then old(OpenStrayWindows()) else old(strayWindows)
      ensures screenMessage == if old(messageLive) then Some(m) else old(screenMessage)
      ensures if !old(hasMessageLabel) && m != "" then
                && hasMessageLabel && !messageLive && !titleLive && !containerLive && !containerShown
                && hasIconLabel == (old(hasIconLabel) || Given(icon)) && iconLive == (old(iconLive) && !Given(icon))
              else
                && hasMessageLabel == old(hasMessageLabel) && messageLive == old(messageLive)
                && titleLive == old(titleLive) && containerLive == old(containerLive)
                && containerShown == old(containerShown)
                && hasIconLabel == old(hasIconLabel) && iconLive == old(iconLive)
    {
      message := m;
      if hasMessageLabel {
        if messageLive {
          screenMessage := Some(m);
        }
      } else if m != "" {
        SetupAgain();
      }
    }

    /**
     * `set_icon`, as written: shown when the icon label is on screen;
     * without an icon label a given icon sets up the UI again, outside the placeholder.
     * With a label, no icon fails on `None.pixmap`.
     */
    method SetIcon(i: Option<string>) returns (attributeError: bool)
      requires Valid()
      modifies this`icon, this`screenIcon, this`hasIconLabel, this`iconLive, this`titleLive, this`hasMessageLabel, this`messageLive,
               this`containerLive, this`containerShown, this`strayWindows
      ensures Valid()
      ensures icon == i
      ensures strayWindows == if !old(hasIconLabel) && Given(i) then old(OpenStrayWindows()) else old(strayWindows)
      ensures screenIcon == if old(iconLive) && i.Some? then i else old(screenIcon)
      ensures if !old(hasIconLabel) && Given(i) then
                && hasIconLabel && !iconLive && !titleLive && !containerLive && !containerShown
                && hasMessageLabel == (old(hasMessageLabel) || message != "")
                && messageLive == (old(messageLive) && message == "")
              else
                && hasIconLabel == old(hasIconLabel) && iconLive == old(iconLive)
                && titleLive == old(titleLive) && containerLive == old(containerLive)
                && containerShown == old(containerShown)
                && hasMessageLabel == old(hasMessageLabel) && messageLive == old(messageLive)
      ensures attributeError <==> old(hasIconLabel) && i.None?
    {
      icon := i;
      attributeError := hasIconLabel && i.None?;
      if hasIconLabel {
        if iconLive && i.Some? {
          screenIcon := i;
        }
      } else if Given(i) {
        SetupAgain();
      }
    }

    /** `set_message` as evidently intended: a missing message label is added on screen. */
    method SetMessageIntended(m: string)
      requires Valid()
      modifies this`message, this`hasMessageLabel, this`messageLive, this`screenMessage
      ensures Valid()
      ensures message == m
      ensures hasMessageLabel == (old(hasMessageLabel) || m != "")
      ensures messageLive == (old(messageLive) || (!old(hasMessageLabel) && m != ""))
      ensures old(messageLive) || (!old(hasMessageLabel) && m != "") ==> messageLive && screenMessage == Some(m)
      ensures old(hasMessageLabel) && !old(messageLive) ==> screenMessage == old(screenMessage)
    {
      message := m;
      if !hasMessageLabel && m != "" {
        hasMessageLabel, messageLive := true, true;
      }
      if messageLive {
        screenMessage := Some(m);
      }
    }

    /** `set_icon` as evidently intended: a missing icon label is added on screen. */
    method SetIconIntended(i: Option<string>)
      requires Valid()
      modifies this`icon, this`hasIconLabel, this`iconLive, this`screenIcon
      ensures Valid()
      ensures icon == i
      ensures hasIconLabel == (old(hasIconLabel) || Given(i))
      ensures iconLive == (old(iconLive) || (!old(hasIconLabel) && Given(i)))
      ensures !old(hasIconLabel) && Given(i) ==> iconLive && screenIcon == i
      ensures old(iconLive) && i.Some? ==> screenIcon == i
    {
      icon := i;
      if !hasIconLabel && Given(i) {
        hasIconLabel, iconLive := true, true;
      }
      if iconLive && i.Some? {
        screenIcon := i;
      }
    }

    /** `_rotate_icon`, the loading timer's slot: the next of four states, its arrow shown on the icon label. */
    method RotateIcon()
      requires Valid() && loading
      modifies this`rotation, this`screenIcon
      ensures Valid()
      ensures rotation == (old(rotation) + 1) % 4
      ensures screenIcon == if iconLive then Some(RotationChar(rotation)) else old(screenIcon)
    {
      rotation := (rotation + 1) % 4;
      if iconLive {
        screenIcon := Some(RotationChar(rotation));
      }
    }

    /** One entry of `set_content`'s action list: its button added, if it is accepted. */
    method AddSpec(spec: ActionSpec)
      requires Valid()
      modifies this`actions, this`shownCount, this`containerShown, this`screenContainerShown
      ensures Valid()
      ensures actions == old(actions) + RequestedOne(spec)
      ensures shownCount == if containerLive then |actions| else old(shownCount)
      ensures containerShown == (old(containerShown) || RequestedOne(spec) != [])
      ensures screenContainerShown == (old(screenContainerShown) || (containerLive && RequestedOne(spec) != []))
    {
      var one := RequestedOne(spec);
      if one != [] {
        AddAction(one[0].item.text, Some(one[0].name), one[0].item.variant);
        assert [one[0]] == one;
      }
    }

    /** `set_content`'s actions: the old ones cleared, then each accepted entry added in order. */
    method ReplaceActions(specs: seq<ActionSpec>)
      requires Valid()
      modifies this`actions, this`shownCount, this`containerShown, this`screenContainerShown
      ensures Valid()
      ensures actions == Requested(specs)
      ensures shownCount == if containerLive then |actions| else 0
      ensures containerShown == (actions != [])
      ensures screenContainerShown == if containerLive then actions != [] else old(screenContainerShown)
    {
      ClearActions();
      var k := 0;
      while k < |specs|
        invariant 0 <= k <= |specs| && Valid()
        invariant actions == Requested(specs[..k])
        invariant shownCount == if containerLive then |actions| else 0
        invariant containerShown == (actions != [])
        invariant screenContainerShown == if containerLive then actions != [] else old(screenContainerShown)
      {
        assert specs[..k + 1][..k] == specs[..k];
        AddSpec(specs[k]);
        k := k + 1;
      }
      assert specs[..k] == specs;
    }

    /** `set_content`'s label updates, as written: title, message, then the icon when given. */
    method SetLabels(t: string, m: string, i: Option<string>)
      requires Valid()
      modifies this`title, this`screenTitle, this`message, this`screenMessage, this`icon, this`screenIcon,
               this`hasIconLabel, this`iconLive, this`titleLive, this`hasMessageLabel, this`messageLive,
               this`containerLive, this`containerShown, this`strayWindows
      ensures Valid()
      ensures title == t && message == m && icon == (if Given(i) then i else old(icon))
      ensures screenTitle == if old(titleLive) then t else old(screenTitle)
      ensures screenMessage == if old(messageLive) then Some(m) else old(screenMessage)
      ensures !old(iconLive) ==> screenIcon == old(screenIcon)
      ensures (!old(hasMessageLabel) && m != "") || (!old(hasIconLabel) && Given(i)) ==> !containerLive
      ensures strayWindows == if (!old(hasMessageLabel) && m != "") || (!old(hasIconLabel) && Given(i))
                              then old(OpenStrayWindows()) else old(strayWindows)
      ensures OpenStrayWindows() == old(OpenStrayWindows())
    {
      SetTitle(t);
      SetMessage(m);
      if Given(i) {
        var _ := SetIcon(i);
      }
    }

    /**
     * `set_content`, as written: title, message, the icon when given,
     * then the actions replaced by the accepted entries.
     */
    method SetContent(t: string, m: string, i: Option<string>, specs: seq<ActionSpec>)
      requires Valid() && custom
      modifies this
      ensures Valid()
      ensures title == t && message == m && icon == (if Given(i) then i else old(icon))
      ensures actions == Requested(specs) && shownCount == if containerLive then |actions| else 0
      ensures screenTitle == if old(titleLive) then t else old(screenTitle)
      ensures !old(messageLive) ==> screenMessage == old(screenMessage)
      ensures !old(iconLive) ==> screenIcon == old(screenIcon)
      ensures (!old(hasMessageLabel) && m != "") || (!old(hasIconLabel) && Given(i)) ==> !containerLive
      ensures strayWindows == if (!old(hasMessageLabel) && m != "") || (!old(hasIconLabel) && Given(i))
                              then old(OpenStrayWindows()) else old(strayWindows)
      ensures StrayWindowOpen() <==> !containerLive && actions != []
    {
      SetLabels(t, m, i);
      ReplaceActions(specs);
    }

    /** `set_content`'s label updates as intended: every label on screen shows its new text. */
    method SetLabelsIntended(t: string, m: string, i: Option<string>)
      requires Valid() && titleLive && (hasMessageLabel ==> messageLive) && (hasIconLabel ==> iconLive)
      modifies this`title, this`screenTitle, this`message, this`screenMessage, this`icon, this`screenIcon,
               this`hasIconLabel, this`iconLive, this`hasMessageLabel, this`messageLive
      ensures Valid() && titleLive && (hasMessageLabel ==> messageLive) && (hasIconLabel ==> iconLive)
      ensures title == t && message == m && icon == (if Given(i) then i else old(icon))
      ensures screenTitle == t && (m != "" ==> screenMessage == Some(m)) && (Given(i) ==> screenIcon == i)
    {
      SetTitle(t);
      SetMessageIntended(m);
      if Given(i) {
        SetIconIntended(i);
      }
    }

    /** `set_content` with the intended label updates. */
    method SetContentIntended(t: string, m: string, i: Option<string>, specs: seq<ActionSpec>)
      requires Valid() && custom && titleLive && containerLive
      requires (hasMessageLabel ==> messageLive) && (hasIconLabel ==> iconLive)
      modifies this
      ensures Valid()
      ensures title == t && message == m && icon == (if Given(i) then i else old(icon))
      ensures screenTitle == t && (m != "" ==> screenMessage == Some(m)) && (Given(i) ==> screenIcon == i)
      ensures actions == Requested(specs) && shownCount == |actions|
      ensures screenContainerShown == (actions != [])
      ensures strayWindows == old(strayWindows) && !StrayWindowOpen()
    {
      SetLabelsIntended(t, m, i);
      ReplaceActions(specs);
    }
  }

  /** `NoDataEmptyState(data_type)`. */
  method NewNoData(dataType: string) returns (e: EmptyStateWidget)
    ensures fresh(e) && e.Valid()
    ensures e.title == "No " + dataType + " found" && e.icon == Some("📭")
    ensures e.message == "There are no " + dataType + " to display right now."
    ensures e.actions == [Named("add_item", ActionButton(AddCaption(dataType), "primary"))] && e.shownCount == 1
    ensures e.screenContainerShown
  {
    e := new EmptyStateWidget("No " + dataType + " found", "There are no " + dataType + " to display right now.", Some("📭"));
    e.AddAction(AddCaption(dataType), Some("add_item"), "primary");
  }

  /** `SearchEmptyState(query)`: clear and browse actions. */
  method NewSearch(query: string) returns (e: EmptyStateWidget)
    ensures fresh(e) && e.Valid()
    ensures e.title == SearchTitle(query) && e.icon == Some("🔍")
    ensures e.message == if query != "" then "Try adjusting your search terms or filters." else "Enter a search term to find items."
    ensures Names(e.actions) == ["clear_search", "browse_all"]
  {
    var m := if query != "" then "Try adjusting your search terms or filters." else "Enter a search term to find items.";
    e := new EmptyStateWidget(SearchTitle(query), m, Some("🔍"));
    e.AddAction("Clear search", Some("clear_search"), "secondary");
    e.AddAction("Browse all", Some("browse_all"), "primary");
  }

  /** `ErrorEmptyState(error_message)`: the given message or a default one. */
  method NewError(errorMessage: string) returns (e: EmptyStateWidget)
    ensures fresh(e) && e.Valid()
    ensures e.title == "Something went wrong" && e.icon == Some("⚠️")
    ensures e.message == if errorMessage != "" then errorMessage else "We encountered an error while loading the data."
    ensures Names(e.actions) == ["retry", "report"]
  {
    var m := if errorMessage != "" then errorMessage else "We encountered an error while loading the data.";
    e := new EmptyStateWidget("Something went wrong", m, Some("⚠️"));
    e.AddAction("Retry", Some("retry"), "primary");
    e.AddAction("Report issue", Some("report"), "secondary");
  }

  /** `PermissionEmptyState(resource)`. */
  method NewPermission(resource: string) returns (e: EmptyStateWidget)
    ensures fresh(e) && e.Valid()
    ensures e.title == "Access denied" && e.icon == Some("🔒")
    ensures e.message == "You don't have permission to view " + resource + "."
    ensures Names(e.actions) == ["request_access", "go_back"]
  {
    e := new EmptyStateWidget("Access denied", "You don't have permission to view " + resource + ".", Some("🔒"));
    e.AddAction("Request access", Some("request_access"), "primary");
    e.AddAction("Go back", Some("go_back"), "secondary");
  }

  /** `MaintenanceEmptyState`. */
  method NewMaintenance() returns (e: EmptyStateWidget)
    ensures fresh(e) && e.Valid()
    ensures e.title == "Under maintenance" && e.icon == Some("🔧")
    ensures Names(e.actions) == ["check_status"]
  {
    e := new EmptyStateWidget("Under maintenance", "This feature is temporarily unavailable while we make improvements.", Some("🔧"));
    e.AddAction("Check status", Some("check_status"), "secondary");
  }

  /** `FirstTimeEmptyState(feature_name)`. */
  method NewFirstTime(feature: string) returns (e: EmptyStateWidget)
    ensures fresh(e) && e.Valid()
    ensures e.title == "Welcome to " + feature + "!" && e.icon == Some("🎉")
    ensures e.message == "Get started by creating your first item or exploring the " + feature + "."
    ensures Names(e.actions) == ["get_started", "take_tour"]
  {
    e := new EmptyStateWidget("Welcome to " + feature + "!",
      "Get started by creating your first item or exploring the " + feature + ".", Some("🎉"));
    e.AddAction("Get started", Some("get_started"), "primary");
    e.AddAction("Take tour", Some("take_tour"), "secondary");
  }

  /**
   * As written, filling a custom placeholder shows only its title: the
   * message and icon go to labels that are never shown, and the action
   * button to a container that opens as a window of its own.
   */
  method CustomContentHidden() returns (title: string, message: Option<string>, icon: Option<string>, buttons: nat, windows: nat)
    ensures title == "Empty" && message == None && icon == None && buttons == 0 && windows == 1
  {
    var e := new EmptyStateWidget.Custom();
    e.SetContent("Empty", "Nothing here", Some("📭"), [TupleSpec(["Add", "add"])]);
    title, message, icon, buttons, windows := e.screenTitle, e.screenMessage, e.screenIcon, e.shownCount, e.OpenStrayWindows();
  }

  /** With the intended updates, all of it is shown. */
  method CustomContentIntended() returns (title: string, message: Option<string>, icon: Option<string>, buttons: nat, windows: nat)
    ensures title == "Empty" && message == Some("Nothing here") && icon == Some("📭") && buttons == 1 && windows == 0
  {
    var e := new EmptyStateWidget.Custom();
    e.SetContentIntended("Empty", "Nothing here", Some("📭"), [TupleSpec(["Add", "add"])]);
    title, message, icon, buttons, windows := e.screenTitle, e.screenMessage, e.screenIcon, e.shownCount, e.OpenStrayWindows();
  }
}
