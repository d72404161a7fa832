/**
 * A panel with a title bar that can leave its parent to float as a tool
 * window and dock back, and the areas that hold docked panels.
 *
 * Geometry is given to the methods as parameters: the cursor position, the
 * screen centre and the panel's size when it detaches, the original
 * parent's position when the drag ends. Signals are returned as values.
 * Widgets are objects; a panel's parent is `null` when it has none.
 */
module DockablePanel {
  import opened Common
  import TabBar

  datatype Point = Point(x: int, y: int)

  function Add(a: Point, b: Point): Point {
    Point(a.x + b.x, a.y + b.y)
  }

  function Sub(a: Point, b: Point): Point {
    Point(a.x - b.x, a.y - b.y)
  }

  function Abs(n: int): nat {
    if n < 0 then -n else n
  }

  /** Qt's `manhattanLength`. */
  function Manhattan(p: Point): nat {
    Abs(p.x) + Abs(p.y)
  }

  /** A dropped panel snaps back when it is within this many pixels of its parent on both axes. */
  const SnapDistance := 50

  predicate Near(panel: Point, parent: Point) {
    Abs(panel.x - parent.x) < SnapDistance && Abs(panel.y - parent.y) < SnapDistance
  }

  /** Where a detached panel goes: centred on the screen centre. */
  function Centered(center: Point, width: nat, height: nat): Point {
    Point(center.x - width / 2, center.y - height / 2)
  }

  /** A floating panel dragged from `start` to `cursor` moves by the same offset. */
  function Dragged(pos: Point, start: Point, cursor: Point): Point {
    Add(pos, Sub(cursor, start))
  }

  // ---------------------------------------------------------------------
  // the docking state

  /** Whether the panel floats, its parent widget, and the parent it left when it detached. */
  datatype Dock = Dock(floating: bool, parent: object?, originalParent: object?)

  /** `_detach_panel`: a docked panel remembers its parent and loses it; a floating one is unchanged. */
  function Detached(s: Dock): Dock {
    if s.floating then s else Dock(true, null, s.parent)
  }

  /** `_attach_panel`: only a floating panel with an original parent goes back to it. */
  function Attached(s: Dock): Dock {
    if !s.floating || s.originalParent == null then s else s.(floating := false, parent := s.originalParent)
  }

  /** `_toggle_detach`. */
  function Toggled(s: Dock): Dock {
    if s.floating then Attached(s) else Detached(s)
  }

  /** Detaching always leaves the panel floating and without a parent, and a floating panel untouched. */
  lemma DetachFloats(s: Dock)
    ensures Detached(s).floating
    ensures s.floating ==> Detached(s) == s
    ensures !s.floating ==> Detached(s).parent == null && Detached(s).originalParent == s.parent
    ensures Detached(Detached(s)) == Detached(s)
  {
  }

  /** Attaching docks exactly the floating panels that have an original parent, back into that parent. */
  lemma AttachDocks(s: Dock)
    ensures !Attached(s).floating <==> !s.floating || s.originalParent != null
    ensures s.floating && s.originalParent != null ==> Attached(s).parent == s.originalParent
    ensures !s.floating || s.originalParent == null ==> Attached(s) == s
    ensures Attached(Attached(s)) == Attached(s)
  {
  }

  /** A docked panel with a parent that detaches and attaches again is back in that parent. */
  lemma DetachAttachRoundTrip(s: Dock)
    requires !s.floating && s.parent != null
    ensures Attached(Detached(s)) == Dock(false, s.parent, s.parent)
  {
  }

  /** A panel detached while it had no parent can never attach again. */
  lemma ParentlessPanelStaysFloating(s: Dock)
    requires !s.floating && s.parent == null
    ensures Attached(Detached(s)).floating && Attached(Detached(s)).parent == null
  {
  }

  /** The title-bar button alternates between floating and docked while the panel has somewhere to dock. */
  lemma ToggleAlternates(s: Dock)
    ensures Toggled(s).floating == (if s.floating then s.originalParent == null else true)
    ensures !s.floating && s.parent != null ==> Toggled(Toggled(s)) == Dock(false, s.parent, s.parent)
  {
  }

  /** A drag keeps the cursor on the same point of the panel. */
  lemma DragKeepsGrip(pos: Point, start: Point, cursor: Point)
    ensures Sub(Dragged(pos, start, cursor), cursor) == Sub(pos, start)
  {
  }

  /** The button in the title bar that detaches and attaches: its text and tooltip, and whether it is shown. */
  datatype DetachButton = DetachButton(text: string, tooltip: string, visible: bool)

  function DockedButton(visible: bool): DetachButton {
    DetachButton("⧉", "Detach panel", visible)
  }

  function FloatingButton(visible: bool): DetachButton {
    DetachButton("⧈", "Attach panel", visible)
  }

  class DockablePanelWidget {
    var title: string
    var closeable: bool
    var detachable: bool
    var floating: bool
    var dragStart: Option<Point>
    var parent: object?
    var originalParent: object?
    /** The top-left corner: in the parent when docked, on the screen when floating. */
    var pos: Point
    /** The detach button exists when the panel was built detachable. */
    var detachButton: Option<DetachButton>
    /** The close button's visibility; it exists when the panel was built closeable. */
    var closeButton: Option<bool>
    var content: seq<object>
    var closed: bool

    function State(): Dock
      reads this
    {
      Dock(floating, parent, originalParent)
    }

    /** The detach button's face follows the docking state. */
    ghost predicate Valid()
      reads this
    {
      detachButton.Some? ==>
        detachButton.value == (if floating then FloatingButton else DockedButton)(detachButton.value.visible)
    }

    constructor (title0: string, closeable0: bool, detachable0: bool, parent0: object?)
      ensures Valid() && !floating && parent == parent0 && originalParent == parent0 && dragStart == None
      ensures title == title0 && closeable == closeable0 && detachable == detachable0
      ensures detachButton == if detachable0 then Some(DockedButton(true)) else None
      ensures closeButton == if closeable0 then Some(true) else None
      ensures content == [] && !closed && pos == Point(0, 0)
    {
      title, closeable, detachable := title0, closeable0, detachable0;
      floating, dragStart := false, None;
      parent, originalParent := parent0, parent0;
      pos := Point(0, 0);
      detachButton := if detachable0 then Some(DockedButton(true)) else None;
      closeButton := if closeable0 then Some(true) else None;
      content, closed := [], false;
    }

    /** `_detach_panel`: a docked panel is centred on the screen and floats; `panel_detached` is emitted. */
    method DetachPanel(center: Point, width: nat, height: nat) returns (detachedSignal: bool)
      requires Valid()
      modifies this`floating, this`parent, this`originalParent, this`pos, this`detachButton
      ensures Valid() && State() == Detached(old(State()))
      ensures detachedSignal == !old(floating)
      ensures pos == if old(floating) then old(pos) else Centered(center, width, height)
      ensures detachButton == if old(floating) || old(detachButton).None? then old(detachButton)
                              else Some(FloatingButton(old(detachButton).value.visible))
    {
      if floating {
        return false;
      }
      originalParent := parent;
      parent := null;
      pos := Centered(center, width, height);
      if detachButton.Some? {
        detachButton := Some(FloatingButton(detachButton.value.visible));
      }
      floating := true;
      detachedSignal := true;
    }

    /** `_attach_panel`: a floating panel with an original parent docks there again; `panel_attached` is emitted. */
    method AttachPanel() returns (attachedSignal: bool)
      requires Valid()
      modifies this`floating, this`parent, this`detachButton
      ensures Valid() && State() == Attached(old(State()))
      ensures attachedSignal == (old(floating) && originalParent != null)
      ensures detachButton == if !attachedSignal || old(detachButton).None? then old(detachButton)
                              else Some(DockedButton(old(detachButton).value.visible))
    {
      if !floating || originalParent == null {
        return false;
      }
      parent := originalParent;
      if detachButton.Some? {
        detachButton := Some(DockedButton(detachButton.value.visible));
      }
      floating := false;
      attachedSignal := true;
    }

    /** `_toggle_detach`: attaches a floating panel, detaches a docked one. */
    method ToggleDetach(center: Point, width: nat, height: nat) returns (detachedSignal: bool, attachedSignal: bool)
      requires Valid()
      modifies this`floating, this`parent, this`originalParent, this`pos, this`detachButton
      ensures Valid() && State() == Toggled(old(State()))
      ensures detachedSignal == !old(floating)
      ensures attachedSignal == (old(floating) && old(originalParent) != null)
    {
      if floating {
        detachedSignal := false;
        attachedSignal := AttachPanel();
      } else {
        attachedSignal := false;
        detachedSignal := DetachPanel(center, width, height);
      }
    }

    /** `_title_mouse_press`: a left press starts a drag at the cursor. */
    method TitleMousePress(left: bool, cursor: Point)
      modifies this`dragStart
      ensures dragStart == if left then Some(cursor) else old(dragStart)
    {
      if left {
        dragStart := Some(cursor);
      }
    }

    /**
     * `_title_mouse_move`: once the cursor has moved further than the
     * platform's drag distance, a docked detachable panel detaches, and a
     * floating panel follows the cursor.
     */
    method TitleMouseMove(leftHeld: bool, cursor: Point, dragDistance: int, center: Point, width: nat, height: nat)
      returns (detachedSignal: bool)
      requires Valid()
      modifies this`floating, this`parent, this`originalParent, this`pos, this`detachButton, this`dragStart
      ensures Valid()
      ensures var go := leftHeld && old(dragStart).Some? && Manhattan(Sub(cursor, old(dragStart).value)) > dragDistance;
        && detachedSignal == (go && !old(floating) && detachable)
        && State() == (if detachedSignal then Detached(old(State())) else old(State()))
        && (go && floating ==>
              pos == Dragged(if detachedSignal then Centered(center, width, height) else old(pos), old(dragStart).value, cursor)
              && dragStart == Some(cursor))
        && (!(go && floating) ==> pos == old(pos) && dragStart == old(dragStart))
      ensures detachButton == if detachedSignal && old(detachButton).Some? then Some(FloatingButton(old(detachButton).value.visible))
                              else old(detachButton)
    {
      detachedSignal := false;
      if leftHeld && dragStart.Some? {
        var start := dragStart.value;
        if Manhattan(Sub(cursor, start)) > dragDistance {
          if !floating && detachable {
            detachedSignal := DetachPanel(center, width, height);
          }
          if floating {
            pos := Dragged(pos, start, cursor);
            dragStart := Some(cursor);
          }
        }
      }
    }

    /** `_title_mouse_release`: ends the drag; a floating panel dropped near its original parent docks there. */
    method TitleMouseRelease(parentPos: Point) returns (attachedSignal: bool)
      requires Valid()
      modifies this`dragStart, this`floating, this`parent, this`detachButton
      ensures Valid() && dragStart == None
      ensures attachedSignal == (old(floating) && originalParent != null && Near(pos, parentPos))
      ensures State() == if attachedSignal then Attached(old(State())) else old(State())
      ensures detachButton == if attachedSignal && old(detachButton).Some? then Some(DockedButton(old(detachButton).value.visible))
                              else old(detachButton)
    {
      dragStart := None;
      attachedSignal := false;
      if floating && originalParent != null && Near(pos, parentPos) {
        attachedSignal := AttachPanel();
      }
    }

    /** `_close_panel`: emits `panel_closed` and closes the window. */
    method ClosePanel() returns (closedSignal: bool)
      modifies this`closed
      ensures closed && closedSignal
    {
      closed := true;
      closedSignal := true;
    }

    /** `set_content`: the widget replaces everything in the content area. */
    method SetContent(w: object)
      modifies this`content
      ensures content == [w]
    {
      content := [w];
    }

    method AddContentWidget(w: object)
      modifies this`content
      ensures content == old(content) + [w]
    {
      content := content + [w];
    }

    method SetTitle(t: string)
      modifies this`title
      ensures title == t
    {
      title := t;
    }

    method GetTitle() returns (t: string)
      ensures t == title
    {
      t := title;
    }

    method IsFloating() returns (b: bool)
      ensures b == floating
    {
      b := floating;
    }

    /** `set_closeable`: records the flag and shows or hides the close button when there is one. */
    method SetCloseable(b: bool)
      modifies this`closeable, this`closeButton
      ensures closeable == b
      ensures closeButton == if old(closeButton).Some? then Some(b) else None
    {
      closeable := b;
      if closeButton.Some? {
        closeButton := Some(b);
      }
    }

    /** `set_detachable`: records the flag and shows or hides the detach button when there is one. */
    method SetDetachable(b: bool)
      requires Valid()
      modifies this`detachable, this`detachButton
      ensures Valid() && detachable == b
      ensures detachButton == if old(detachButton).Some? then Some(old(detachButton).value.(visible := b)) else None
    {
      detachable := b;
      if detachButton.Some? {
        detachButton := Some(detachButton.value.(visible := b));
      }
    }
  }

  // ---------------------------------------------------------------------
  // docking areas

  /** `add_panel`'s list update: a panel is appended once. */
  function WithPanel<T(==)>(panels: seq<T>, p: T): (r: seq<T>)
    ensures p in r
  {
    if p in panels then panels else panels + [p]
  }

  /** Adding keeps the panels distinct, appends only a new panel, and a second add changes nothing. */
  lemma WithPanelDistinct<T>(panels: seq<T>, p: T)
    requires Distinct(panels)
    ensures Distinct(WithPanel(panels, p))
    ensures forall q :: q in WithPanel(panels, p) <==> q in panels || q == p
    ensures WithPanel(WithPanel(panels, p), p) == WithPanel(panels, p)
  {
    if p !in panels {
      var r := panels + [p];
      forall i, j | 0 <= i < j < |r|
        ensures r[i] != r[j]
      {
        if j == |panels| {
          assert r[i] == panels[i];
        }
      }
    }
  }

  /** A new panel added and then removed leaves the list as it was. */
  lemma AddThenRemovePanel<T>(panels: seq<T>, p: T)
    requires p !in panels
    ensures RemoveFirst(WithPanel(panels, p), p) == panels
  {
    RemoveFirstAfter(panels, p);
  }

  /** Removing takes exactly that panel out of a distinct list. */
  lemma RemovePanelSpec<T>(panels: seq<T>, p: T)
    requires Distinct(panels)
    ensures Distinct(RemoveFirst(panels, p))
    ensures forall q :: q in RemoveFirst(panels, p) <==> q in panels && q != p
    ensures p !in panels ==> RemoveFirst(panels, p) == panels
  {
    RemoveFirstDistinct(panels, p);
  }

  datatype Orientation = Vertical | Horizontal

  class DockingArea {
    const orientation: Orientation
    var panels: seq<DockablePanelWidget>

    ghost predicate Valid()
      reads this
    {
      Distinct(panels)
    }

    constructor (orientation0: Orientation)
      ensures Valid() && orientation == orientation0 && panels == []
    {
      orientation := orientation0;
      panels := [];
    }

    /** `add_panel`: a new panel is appended and laid out in the area, and `panel_docked` is emitted. */
    method AddPanel(p: DockablePanelWidget) returns (docked: bool)
      requires Valid()
      modifies this`panels, p`parent
      ensures Valid() && panels == WithPanel(old(panels), p)
      ensures docked == (p !in old(panels))
      ensures p.parent == if docked then this else old(p.parent)
    {
      WithPanelDistinct(panels, p);
      docked := p !in panels;
      if docked {
        panels := panels + [p];
        p.parent := this;
      }
    }

    /** `_remove_panel`, connected to each panel's `panel_closed`: forgets the panel and emits `panel_undocked`. */
    method OnPanelClosed(p: DockablePanelWidget) returns (undocked: bool)
      requires Valid()
      modifies this`panels
      ensures Valid() && panels == RemoveFirst(old(panels), p)
      ensures undocked == (p in old(panels))
    {
      RemovePanelSpec(panels, p);
      undocked := p in panels;
      if undocked {
        panels := RemoveFirst(panels, p);
      }
    }

    /** `remove_panel`: a panel of the area loses its parent and is forgotten. */
    method RemovePanel(p: DockablePanelWidget) returns (undocked: bool)
      requires Valid()
      modifies this`panels, p`parent
      ensures Valid() && panels == RemoveFirst(old(panels), p)
      ensures undocked == (p in old(panels))
      ensures p.parent == if undocked then null else old(p.parent)
    {
      undocked := false;
      if p in panels {
        p.parent := null;
        undocked := OnPanelClosed(p);
      }
    }

    /** `get_panels`: a copy of the list. */
    method GetPanels() returns (ps: seq<DockablePanelWidget>)
      ensures ps == panels
    {
      ps := panels;
    }

    /** `clear_panels`: every panel is removed in turn and loses its parent. */
    method ClearPanels()
      requires Valid()
      modifies this`panels, panels`parent
      ensures Valid() && panels == []
      ensures forall q :: q in old(panels) ==> q.parent == null
    {
      var ps := panels;
      var i := 0;
      while i < |ps|
        invariant 0 <= i <= |ps| && Valid()
        invariant panels == ps[i..]
        invariant forall j :: 0 <= j < i ==> ps[j].parent == null
      {
        var p := ps[i];
        assert ps[i..] == [p] + ps[i + 1..];
        var _ := RemovePanel(p);
        i := i + 1;
      }
    }
  }

  /** The widget a tabbed area wraps each panel in before giving it to a tab. */
  class ContentWidget {
    const panel: DockablePanelWidget

    constructor (p: DockablePanelWidget)
      ensures panel == p
    {
      panel := p;
    }
  }

  /**
   * An area that puts each panel on a tab of a tabbed container. Closing a
   * panel forgets it but leaves its tab.
   *
   * As written, the container never reaches the screen: the area's first
   * layout is detached with `setParent(None)`, which does not unset it as
   * the area's layout, so the `QVBoxLayout(self)` meant to hold the
   * container is refused.
   */
  class TabbedDockingArea {
    const area: DockingArea
    const tabs: TabBar.TabbedContainer
    /** Content widgets are numbered for the container in the order they are made. */
    var made: nat
    /** Whether the tabbed container sits in the layout Qt installed on the area, and so is on screen. */
    const containerShown: bool

    /** The panels the area shows: all of them when the container is on screen, none otherwise. */
    function ShownPanels(): (r: seq<DockablePanelWidget>)
      reads this, area
      ensures containerShown ==> r == area.panels
      ensures !containerShown ==> r == []
    {
      if containerShown then area.panels else []
    }

    ghost predicate Valid()
      reads this, area, tabs, tabs.bar
    {
      area.Valid() && tabs.Valid() && area.orientation == Vertical
    }

    /** `TabbedDockingArea()` as written: the container's layout is refused, so the container is not shown. */
    constructor ()
      ensures Valid() && fresh(area) && fresh(tabs) && fresh(tabs.bar)
      ensures area.panels == [] && tabs.bar.tabs == [] && made == 0
      ensures !containerShown
    {
      area := new DockingArea(Vertical);
      tabs := new TabBar.TabbedContainer();
      made, containerShown := 0, false;
    }

    /** The area as intended: the tabbed container replaces the first layout and is shown. */
    constructor Intended()
      ensures Valid() && fresh(area) && fresh(tabs) && fresh(tabs.bar)
      ensures area.panels == [] && tabs.bar.tabs == [] && made == 0
      ensures containerShown
    {
      area := new DockingArea(Vertical);
      tabs := new TabBar.TabbedContainer();
      made, containerShown := 0, true;
    }

    /**
     * `add_panel`: a new panel goes into a fresh content widget on a new
     * tab titled like the panel; it is on screen exactly when the
     * container is.
     */
    method AddPanel(p: DockablePanelWidget) returns (docked: bool)
      requires Valid()
      modifies area`panels, p`parent, this`made, tabs`content, tabs`shown, tabs.bar`tabs, tabs.bar`active
      ensures Valid() && area.panels == WithPanel(old(area.panels), p)
      ensures docked == (p !in old(area.panels))
      ensures !docked ==> p.parent == old(p.parent) && made == old(made) && tabs.bar.tabs == old(tabs.bar.tabs)
                          && tabs.content == old(tabs.content) && tabs.shown == old(tabs.shown)
      ensures docked ==> p.parent is ContentWidget && fresh(p.parent) && made == old(made) + 1
      ensures docked ==> tabs.bar.tabs == old(tabs.bar.tabs) + [TabBar.Tab(p.title, None, tabs.bar.closeableDefault)]
      ensures docked ==> |old(tabs.bar.tabs)| in tabs.content && tabs.content[|old(tabs.bar.tabs)|] == old(made)
      ensures docked ==> old(made) !in tabs.shown
      ensures docked ==> (p in ShownPanels() <==> containerShown)
    {
      WithPanelDistinct(area.panels, p);
      docked := p !in area.panels;
      if docked {
        var _ := tabs.AddTab(p.title, made, None);
        made := made + 1;
        var holder := new ContentWidget(p);
        p.parent := holder;
        area.panels := area.panels + [p];
      }
    }
  }

  /** The splitter of a splitter area: the widgets it holds, in order. */
  class Splitter {
    const orientation: Orientation
    var widgets: seq<object>

    constructor (orientation0: Orientation)
      ensures orientation == orientation0 && widgets == []
    {
      orientation := orientation0;
      widgets := [];
    }
  }

  /**
   * An area whose panels sit side by side in a resizable splitter. As
   * written, the splitter is never on screen, for the reason given for the
   * tabbed area: the layout meant to hold it is refused.
   */
  class SplitterDockingArea {
    const area: DockingArea
    const splitter: Splitter
    /** Whether the splitter sits in the layout Qt installed on the area, and so is on screen. */
    const splitterShown: bool

    /** The panels the area shows: those in the splitter when it is on screen, none otherwise. */
    function ShownPanels(): (r: seq<object>)
      reads this, splitter
      ensures splitterShown ==> r == splitter.widgets
      ensures !splitterShown ==> r == []
    {
      if splitterShown then splitter.widgets else []
    }

    ghost predicate Valid()
      reads this, area
    {
      area.Valid() && splitter.orientation == area.orientation
    }

    /** `SplitterDockingArea(orientation)` as written: the splitter's layout is refused, so the splitter is not shown. */
    constructor (orientation: Orientation)
      ensures Valid() && fresh(area) && fresh(splitter) && area.panels == [] && splitter.widgets == []
      ensures area.orientation == orientation && !splitterShown
    {
      area := new DockingArea(orientation);
      splitter := new Splitter(orientation);
      splitterShown := false;
    }

    /** The area as intended: the splitter replaces the first layout and is shown. */
    constructor Intended(orientation: Orientation)
      ensures Valid() && fresh(area) && fresh(splitter) && area.panels == [] && splitter.widgets == []
      ensures area.orientation == orientation && splitterShown
    {
      area := new DockingArea(orientation);
      splitter := new Splitter(orientation);
      splitterShown := true;
    }

    /** `add_panel`: a new panel is appended to the splitter, which becomes its parent; it is on screen exactly when the splitter is. */
    method AddPanel(p: DockablePanelWidget) returns (docked: bool)
      requires Valid()
      modifies area`panels, p`parent, splitter`widgets
      ensures Valid() && area.panels == WithPanel(old(area.panels), p)
      ensures docked == (p !in old(area.panels))
      ensures p.parent == if docked then splitter else old(p.parent)
      ensures splitter.widgets == if docked then old(splitter.widgets) + [p] else old(splitter.widgets)
      ensures docked ==> (p in ShownPanels() <==> splitterShown)
    {
      WithPanelDistinct(area.panels, p);
      docked := p !in area.panels;
      if docked {
        area.panels := area.panels + [p];
        splitter.widgets := splitter.widgets + [p];
        p.parent := splitter;
      }
    }
  }

  /** As written, a panel added to a tabbed area is not on screen. */
  method TabbedPanelHidden() returns (docked: bool, shown: seq<DockablePanelWidget>)
    ensures docked && shown == []
  {
    var a := new TabbedDockingArea();
    var p := new DockablePanelWidget("Files", true, true, null);
    docked := a.AddPanel(p);
    shown := a.ShownPanels();
  }

  /** As intended, the same panel is shown on its tab. */
  method TabbedPanelShownIntended() returns (docked: bool, shown: seq<DockablePanelWidget>)
    ensures docked && |shown| == 1 && shown[0].title == "Files"
  {
    var a := new TabbedDockingArea.Intended();
    var p := new DockablePanelWidget("Files", true, true, null);
    docked := a.AddPanel(p);
    shown := a.ShownPanels();
  }

  /** As written, a panel added to a splitter area is not on screen. */
  method SplitPanelHidden() returns (docked: bool, shown: seq<object>)
    ensures docked && shown == []
  {
    var a := new SplitterDockingArea(Horizontal);
    var p := new DockablePanelWidget("Files", true, true, null);
    docked := a.AddPanel(p);
    shown := a.ShownPanels();
  }

  /** As intended, the same panel is shown in the splitter. */
  method SplitPanelShownIntended() returns (docked: bool, shown: seq<object>)
    ensures docked && |shown| == 1
  {
    var a := new SplitterDockingArea.Intended(Horizontal);
    var p := new DockablePanelWidget("Files", true, true, null);
    docked := a.AddPanel(p);
    shown := a.ShownPanels();
  }
}
