/**
 * A bar of closeable tabs with one active tab, and a container that keeps
 * one content widget per tab and shows the active tab's content.
 *
 * The bar's signals are returned as a list of events in the order they
 * are emitted; the container reacts to them in that order, as Qt's direct
 * connections do.
 */
module TabBar {
  import opened Common

  datatype Tab = Tab(name: string, icon: Option<string>, closeable: bool)

  datatype TabEvent = TabClicked(index: int, name: string) | TabClosed(index: int, name: string) | TabAdded(index: int, name: string)

  /** The active tab after closing tab `index` of `count` tabs (the count before closing). */
  function ActiveAfterClose(active: int, index: int, count: int): (a: int)
    requires 0 <= index < count && (active == -1 || 0 <= active < count)
    ensures count == 1 && active != -1 ==> a == -1
    ensures active == -1 ==> a == -1
    ensures count > 1 && active != -1 ==> 0 <= a < count - 1
  {
    if active == index then (if count > 1 then Max0(index - 1) else -1)
    else if active > index then active - 1
    else active
  }

  function Max0(x: int): nat { if x >= 0 then x else 0 }

  /** The tab that was active stays active after closing another one; closing the active one activates its left neighbour. */
  lemma ActiveAfterCloseKeepsTab(active: int, index: int, count: int)
    requires 0 <= index < count && 0 <= active < count
    ensures active != index ==> var a := ActiveAfterClose(active, index, count); a + (if a >= index then 1 else 0) == active
    ensures active == index && count > 1 ==> ActiveAfterClose(active, index, count) == if index > 0 then index - 1 else 0
  {
  }

  class TabBarWidget {
    const closeableDefault: bool
    const scrollable: bool
    var tabs: seq<Tab>
    var active: int

    /** There is an active tab exactly when there are tabs, and it is one of them. */
    ghost predicate Valid()
      reads this
    {
      (active == -1 <==> tabs == []) && -1 <= active < |tabs|
    }

    constructor (closeable: bool, scrollable0: bool)
      ensures Valid() && tabs == [] && active == -1
      ensures closeableDefault == closeable && scrollable == scrollable0
    {
      closeableDefault, scrollable := closeable, scrollable0;
      tabs, active := [], -1;
    }

    /** Appends a tab and returns its index, the count before; the first tab becomes active. */
    method AddTab(name: string, icon: Option<string>, closeable: Option<bool>) returns (index: int, events: seq<TabEvent>)
      requires Valid()
      modifies this`tabs, this`active
      ensures Valid()
      ensures index == |old(tabs)|
      ensures tabs == old(tabs) + [Tab(name, icon, if closeable.Some? then closeable.value else closeableDefault)]
      ensures active == if old(tabs) == [] then 0 else old(active)
      ensures events == AddedEvents(old(tabs), name)
    {
      index := |tabs|;
      tabs := tabs + [Tab(name, icon, if closeable.Some? then closeable.value else closeableDefault)];
      events := [];
      if |tabs| == 1 {
        events := SetActiveTab(0);
      }
      events := events + [TabAdded(index, name)];
    }

    /** `tab_clicked` for the first tab (it becomes active), then `tab_added`. */
    static function AddedEvents(before: seq<Tab>, name: string): seq<TabEvent>
    {
      (if before == [] then [TabClicked(0, name)] else []) + [TabAdded(|before|, name)]
    }

    /** The "+" button adds "Tab {n + 1}". */
    method AddDefaultTab() returns (index: int, events: seq<TabEvent>)
      requires Valid()
      modifies this`tabs, this`active
      ensures Valid()
      ensures index == |old(tabs)|
      ensures tabs == old(tabs) + [Tab("Tab " + IntToStr(|old(tabs)| + 1), None, closeableDefault)]
    {
      index, events := AddTab("Tab " + IntToStr(|tabs| + 1), None, None);
    }

    /** Makes an existing tab active and emits `tab_clicked`; an index out of range changes nothing. */
    method SetActiveTab(index: int) returns (events: seq<TabEvent>)
      modifies this`active
      ensures 0 <= index < |tabs| ==> active == index && events == [TabClicked(index, tabs[index].name)]
      ensures !(0 <= index < |tabs|) ==> active == old(active) && events == []
    {
      if !(0 <= index < |tabs|) {
        return [];
      }
      active := index;
      events := [TabClicked(index, tabs[index].name)];
    }

    /**
     * Removes an existing tab. Closing the active tab activates the one to
     * its left (or the new first tab), emitting `tab_clicked` first; closing
     * a tab left of the active one shifts the active index down.
     */
    method CloseTab(index: int) returns (events: seq<TabEvent>)
      requires Valid()
      modifies this`tabs, this`active
      ensures Valid()
      ensures !(0 <= index < |old(tabs)|) ==> tabs == old(tabs) && active == old(active) && events == []
      ensures 0 <= index < |old(tabs)| ==> tabs == DeleteAt(old(tabs), index)
      ensures 0 <= index < |old(tabs)| ==> active == ActiveAfterClose(old(active), index, |old(tabs)|)
      ensures 0 <= index < |old(tabs)| ==>
                events == (if old(active) == index && tabs != [] then [TabClicked(active, tabs[active].name)] else [])
                          + [TabClosed(index, old(tabs)[index].name)]
    {
      events := [];
      if 0 <= index < |tabs| {
        var name := tabs[index].name;
        tabs := tabs[..index] + tabs[index + 1..];
        if active == index {
          if tabs != [] {
            events := SetActiveTab(Max0(index - 1));
          } else {
            active := -1;
          }
        } else if active > index {
          active := active - 1;
        }
        events := events + [TabClosed(index, name)];
      }
    }

    method GetTabName(index: int) returns (name: string)
      ensures 0 <= index < |tabs| ==> name == tabs[index].name
      ensures !(0 <= index < |tabs|) ==> name == ""
    {
      if 0 <= index < |tabs| {
        return tabs[index].name;
      }
      return "";
    }

    method SetTabName(index: int, name: string)
      modifies this`tabs
      ensures 0 <= index < |old(tabs)| ==> tabs == old(tabs)[index := old(tabs)[index].(name := name)]
      ensures !(0 <= index < |old(tabs)|) ==> tabs == old(tabs)
    {
      if 0 <= index < |tabs| {
        tabs := tabs[index := tabs[index].(name := name)];
      }
    }

    method SetTabIcon(index: int, icon: Option<string>)
      modifies this`tabs
      ensures 0 <= index < |old(tabs)| ==> tabs == old(tabs)[index := old(tabs)[index].(icon := icon)]
      ensures !(0 <= index < |old(tabs)|) ==> tabs == old(tabs)
    {
      if 0 <= index < |tabs| {
        tabs := tabs[index := tabs[index].(icon := icon)];
      }
    }

    /** Closes every tab, from the last to the first. */
    method ClearTabs() returns (events: seq<TabEvent>)
      requires Valid()
      modifies this`tabs, this`active
      ensures Valid() && tabs == [] && active == -1
    {
      events := [];
      var i := |tabs| - 1;
      while i >= 0
        invariant Valid()
        invariant |tabs| == i + 1
        decreases i
      {
        var e := CloseTab(i);
        events := events + e;
        i := i - 1;
      }
    }
  }

  /**
   * `_on_tab_closed`'s re-keying: the closed index is gone, lower keys are
   * kept and higher keys move down by one.
   */
  function Rekey<W>(m: map<int, W>, index: int): (r: map<int, W>)
    ensures forall k {:trigger k in r} :: k in r <==> (k < index && k in m) || (k >= index && k + 1 in m)
    ensures forall k {:trigger r[k]} :: k in r && k < index ==> k in m && r[k] == m[k]
    ensures forall k {:trigger r[k]} :: k in r && k >= index ==> k + 1 in m && r[k] == m[k + 1]
  {
    var keys := set j | j in m && j != index :: if j < index then j else j - 1;
    assert forall k {:trigger k in keys} :: k in keys <==> (k < index && k in m) || (k >= index && k + 1 in m) by {
      forall k | (k < index && k in m) || (k >= index && k + 1 in m)
        ensures k in keys
      {
        var j := if k < index then k else k + 1;
        assert j in m && j != index && k == (if j < index then j else j - 1);
      }
    }
    map k | k in keys :: if k < index then m[k] else m[k + 1]
  }

  /** A content map that mirrors a list of widgets keeps mirroring it once the same position is deleted from both. */
  lemma RekeyMirrorsDeleteAt<W>(m: map<int, W>, ws: seq<W>, index: int)
    requires Mirrors(m, ws) && 0 <= index < |ws|
    ensures Mirrors(Rekey(m, index), DeleteAt(ws, index))
  {
    var r := Rekey(m, index);
    var d := DeleteAt(ws, index);
    forall k | 0 <= k < |d|
      ensures k in r && r[k] == d[k]
    {
      if k >= index {
        assert k + 1 in m && d[k] == ws[k + 1];
      } else {
        assert k in m && d[k] == ws[k];
      }
    }
  }

  /** Re-keying a map over 0..n-1 after closing one of them gives a map over 0..n-2. */
  lemma RekeyKeys<W>(m: map<int, W>, index: int, n: int)
    requires (forall k :: k in m <==> 0 <= k < n) && 0 <= index < n
    ensures forall k :: k in Rekey(m, index) <==> 0 <= k < n - 1
  {
    forall k
      ensures k in Rekey(m, index) <==> 0 <= k < n - 1
    {
      assert k in m <==> 0 <= k < n;
      assert k + 1 in m <==> 0 <= k + 1 < n;
    }
  }

  /** The map has exactly the keys 0..|ws|-1, and key k holds ws[k]. */
  ghost predicate Mirrors<W>(m: map<int, W>, ws: seq<W>)
  {
    (forall k :: k in m <==> 0 <= k < |ws|) && forall k :: 0 <= k < |ws| ==> m[k] == ws[k]
  }

  /** What the container holds: the tab-to-widget map and the widgets shown. */
  datatype ContainerState = ContainerState(content: map<int, nat>, shown: set<nat>)

  /**
   * How the container reacts to one event of the bar: `tab_clicked` hides
   * every content widget and shows the clicked tab's, if it has one yet;
   * `tab_closed` detaches the closed tab's widget and re-keys the rest.
   */
  function Step(st: ContainerState, e: TabEvent): (r: ContainerState)
    ensures e.TabClicked? ==> r.content == st.content
    ensures e.TabClicked? && e.index in st.content ==> r.shown * st.content.Values == {st.content[e.index]}
    ensures e.TabClicked? && e.index !in st.content ==> r.shown * st.content.Values == {}
    ensures e.TabClosed? ==> r.content == Rekey(st.content, e.index)
    ensures e.TabClosed? && e.index in st.content ==> st.content[e.index] !in r.shown
    ensures r.shown <= st.shown + st.content.Values
  {
    match e
    case TabClicked(k, _) =>
      ContainerState(st.content, (st.shown - st.content.Values) + (if k in st.content then {st.content[k]} else {}))
    case TabClosed(k, _) =>
      ContainerState(Rekey(st.content, k), if k in st.content then st.shown - {st.content[k]} else st.shown)
    case TabAdded(_, _) => st
  }

  /** The events handled in order. */
  function Apply(st: ContainerState, events: seq<TabEvent>): ContainerState
  {
    if events == [] then st else Step(Apply(st, events[..|events| - 1]), events[|events| - 1])
  }

  lemma ApplyOne(st: ContainerState, e: TabEvent)
    ensures Apply(st, [e]) == Step(st, e)
  {
    assert [e][..0] == [];
  }

  lemma ApplyTwo(st: ContainerState, e1: TabEvent, e2: TabEvent)
    ensures Apply(st, [e1, e2]) == Step(Step(st, e1), e2)
  {
    assert [e1, e2][..1] == [e1];
    ApplyOne(st, e1);
  }

  /** Adding a tab handles its events before the widget exists: the map is unchanged, and the first tab's click hides what was shown. */
  lemma AddedEventsState(st: ContainerState, before: seq<Tab>, name: string)
    requires st.content == map[] || before != []
    ensures Apply(st, TabBarWidget.AddedEvents(before, name)).content == st.content
    ensures Apply(st, TabBarWidget.AddedEvents(before, name)).shown == st.shown
  {
    if before == [] {
      ApplyTwo(st, TabClicked(0, name), TabAdded(0, name));
    } else {
      ApplyOne(st, TabAdded(|before|, name));
    }
  }

  /** Closing the active first of two tabs: `tab_clicked` shows the closing widget, `tab_closed` detaches it. */
  lemma CloseActiveFirstOfTwo()
    ensures var st := Apply(ContainerState(map[0 := 1, 1 := 2], {1}), [TabClicked(0, "b"), TabClosed(0, "a")]);
      st.content == map[0 := 2] && st.shown == {}
  {
    var m := map[0 := 1, 1 := 2];
    ApplyTwo(ContainerState(m, {1}), TabClicked(0, "b"), TabClosed(0, "a"));
    ClickShowsKeyZero(m);
    RekeyFirstOfTwo();
  }

  lemma ClickShowsKeyZero(m: map<int, nat>)
    requires 0 in m && m[0] == 1
    ensures Step(ContainerState(m, {1}), TabClicked(0, "b")) == ContainerState(m, {1})
  {
  }

  lemma RekeyFirstOfTwo()
    ensures Step(ContainerState(map[0 := 1, 1 := 2], {1}), TabClosed(0, "a")) == ContainerState(map[0 := 2], {})
  {
    var m := map[0 := 1, 1 := 2];
    var r := Rekey(m, 0);
    forall k
      ensures k in r <==> k == 0
    {
      assert k in r <==> (k < 0 && k in m) || (k >= 0 && k + 1 in m);
    }
    assert r[0] == m[1];
    assert r == map[0 := 2];
  }

  /**
   * The tabbed container as written. Content widgets are numbered; the
   * container keeps a map from tab index to widget and the set of widgets
   * shown.
   */
  class TabbedContainer {
    const bar: TabBarWidget
    var content: map<int, nat>
    var shown: set<nat>

    ghost predicate Valid()
      reads this, bar
    {
      bar.Valid()
    }

    constructor ()
      ensures Valid() && fresh(bar) && bar.tabs == [] && content == map[] && shown == {}
      ensures bar.closeableDefault && bar.scrollable
    {
      bar := new TabBarWidget(true, true);
      content, shown := map[], {};
    }

    /** Handles the bar's events one after the other. */
    method Dispatch(events: seq<TabEvent>)
      modifies this`content, this`shown
      ensures ContainerState(content, shown) == Apply(ContainerState(old(content), old(shown)), events)
    {
      var i := 0;
      while i < |events|
        invariant 0 <= i <= |events|
        invariant ContainerState(content, shown) == Apply(ContainerState(old(content), old(shown)), events[..i])
      {
        assert events[..i + 1][..i] == events[..i];
        var st := Step(ContainerState(content, shown), events[i]);
        content, shown := st.content, st.shown;
        i := i + 1;
      }
      assert events[..i] == events;
    }

    /** Adds a tab and registers its widget hidden; the bar's events are handled before the widget is registered. */
    method AddTab(name: string, widget: nat, icon: Option<string>) returns (index: int)
      requires Valid()
      modifies this`content, this`shown, bar`tabs, bar`active
      ensures Valid()
      ensures index == |old(bar.tabs)| && bar.tabs == old(bar.tabs) + [Tab(name, icon, bar.closeableDefault)]
      ensures content == Apply(ContainerState(old(content), old(shown)), bar.AddedEvents(old(bar.tabs), name)).content[index := widget]
      ensures shown == Apply(ContainerState(old(content), old(shown)), bar.AddedEvents(old(bar.tabs), name)).shown - {widget}
    {
      var events;
      index, events := bar.AddTab(name, icon, None);
      Dispatch(events);
      content := content[index := widget];
      shown := shown - {widget};
    }

    method ClickTab(index: int)
      requires Valid()
      modifies this`content, this`shown, bar`active
      ensures Valid()
      ensures 0 <= index < |bar.tabs| ==> bar.active == index
      ensures ContainerState(content, shown) ==
                Apply(ContainerState(old(content), old(shown)), if 0 <= index < |bar.tabs| then [TabClicked(index, bar.tabs[index].name)] else [])
    {
      var events := bar.SetActiveTab(index);
      Dispatch(events);
    }

    method CloseTab(index: int)
      requires Valid()
      modifies this`content, this`shown, bar`tabs, bar`active
      ensures Valid()
      ensures 0 <= index < |old(bar.tabs)| ==> bar.tabs == DeleteAt(old(bar.tabs), index)
      ensures 0 <= index < |old(bar.tabs)| ==> bar.active == ActiveAfterClose(old(bar.active), index, |old(bar.tabs)|)
      ensures 0 <= index < |old(bar.tabs)| ==>
                ContainerState(content, shown) == Apply(ContainerState(old(content), old(shown)),
                  (if old(bar.active) == index && bar.tabs != [] then [TabClicked(bar.active, bar.tabs[bar.active].name)] else [])
                  + [TabClosed(index, old(bar.tabs)[index].name)])
    {
      var events := bar.CloseTab(index);
      Dispatch(events);
    }
  }

  /** As written, the first tab is made active before its widget is registered, so its content stays hidden. */
  method FirstTabContentStaysHidden() returns (active: int, shown: set<nat>)
    ensures active == 0 && shown == {}
  {
    var c := new TabbedContainer();
    var _ := c.AddTab("a", 1, None);
    assert TabBarWidget.AddedEvents([], "a") == [TabClicked(0, "a"), TabAdded(0, "a")];
    ApplyTwo(ContainerState(map[], {}), TabClicked(0, "a"), TabAdded(0, "a"));
    active, shown := c.bar.active, c.shown;
  }

  /** Tabs "a" (widget 1) and "b" (widget 2), with "a" clicked so that its widget is shown. */
  method TwoTabsFirstShown() returns (c: TabbedContainer)
    ensures fresh(c) && fresh(c.bar) && c.Valid()
    ensures c.bar.tabs == [Tab("a", None, true), Tab("b", None, true)] && c.bar.active == 0
    ensures c.content == map[0 := 1, 1 := 2] && c.shown == {1}
  {
    var a := Tab("a", None, true);
    c := new TabbedContainer();
    var _ := c.AddTab("a", 1, None);
    AddedEventsState(ContainerState(map[], {}), [], "a");
    var _ := c.AddTab("b", 2, None);
    AddedEventsState(ContainerState(map[0 := 1], {}), [a], "b");
    c.ClickTab(0);
    ApplyOne(ContainerState(map[0 := 1, 1 := 2], {}), TabClicked(0, "a"));
  }

  /**
   * As written, closing the active first tab shows the closed tab's widget
   * (its entry is not yet re-keyed) and then detaches it: the new active
   * tab's widget stays hidden.
   */
  method ClosingActiveFirstTabHidesContent() returns (active: int, activeWidget: nat, shown: set<nat>)
    ensures active == 0 && activeWidget == 2 && activeWidget !in shown
  {
    var c := TwoTabsFirstShown();
    c.CloseTab(0);
    assert c.bar.tabs == DeleteAt([Tab("a", None, true), Tab("b", None, true)], 0) == [Tab("b", None, true)];
    assert c.bar.active == 0;
    CloseActiveFirstOfTwo();
    active, activeWidget, shown := c.bar.active, c.content[0], c.shown;
  }

  /**
   * The container as evidently intended: it brings its map up to date
   * before showing anything, so the active tab's widget is always the one
   * shown.
   */
  class SyncedTabbedContainer {
    const bar: TabBarWidget
    var content: map<int, nat>
    var shown: set<nat>

    /** A widget per tab, and exactly the active tab's widget shown. */
    ghost predicate Valid()
      reads this, bar
    {
      bar.Valid()
      && (forall k :: k in content <==> 0 <= k < |bar.tabs|)
      && shown == if bar.active == -1 then {} else {content[bar.active]}
    }

    constructor ()
      ensures Valid() && fresh(bar) && bar.tabs == [] && content == map[] && shown == {}
      ensures bar.closeableDefault && bar.scrollable
    {
      bar := new TabBarWidget(true, true);
      content, shown := map[], {};
    }

    /** Hides every content widget and shows the active tab's. */
    method ShowActive()
      requires bar.Valid() && forall k :: k in content <==> 0 <= k < |bar.tabs|
      modifies this`shown
      ensures Valid()
    {
      shown := if bar.active == -1 then {} else {content[bar.active]};
    }

    method AddTab(name: string, widget: nat, icon: Option<string>) returns (index: int)
      requires Valid()
      modifies this`content, this`shown, bar`tabs, bar`active
      ensures Valid()
      ensures index == |old(bar.tabs)| && bar.tabs == old(bar.tabs) + [Tab(name, icon, bar.closeableDefault)]
      ensures content == old(content)[index := widget]
      ensures bar.active == index ==> shown == {widget}
    {
      var events;
      index, events := bar.AddTab(name, icon, None);
      content := content[index := widget];
      ShowActive();
    }

    method ClickTab(index: int)
      requires Valid()
      modifies this`shown, bar`active
      ensures Valid() && content == old(content)
      ensures 0 <= index < |bar.tabs| ==> bar.active == index && shown == {content[index]}
    {
      var events := bar.SetActiveTab(index);
      ShowActive();
    }

    method CloseTab(index: int)
      requires Valid()
      modifies this`content, this`shown, bar`tabs, bar`active
      ensures Valid()
      ensures 0 <= index < |old(bar.tabs)| ==> bar.tabs == DeleteAt(old(bar.tabs), index) && content == Rekey(old(content), index)
      ensures !(0 <= index < |old(bar.tabs)|) ==> content == old(content) && shown == old(shown)
    {
      var count, before := |bar.tabs|, content;
      var events := bar.CloseTab(index);
      if 0 <= index < count {
        RekeyKeys(before, index, count);
        var after := Rekey(before, index);
        content := after;
        ShowActive();
        assert content == after;
      }
    }
  }

  /** In the corrected container, closing the active first tab of two shows the remaining tab's widget. */
  method SyncedClosingActiveFirstTabShowsContent() returns (active: int, shown: set<nat>)
    ensures active == 0 && shown == {2}
  {
    var c := new SyncedTabbedContainer();
    var _ := c.AddTab("a", 1, None);
    var _ := c.AddTab("b", 2, None);
    c.ClickTab(0);
    c.CloseTab(0);
    assert c.content[0] == 2;
    active, shown := c.bar.active, c.shown;
  }
}
