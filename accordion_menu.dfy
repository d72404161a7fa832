/**
 * A vertical menu of named sections. Each section has a header that expands
 * or collapses it and a list of item buttons. Unless several sections may be
 * open at once, opening a section first collapses every other open one.
 *
 * The sections live in an insertion-ordered dictionary (module PyDict). The
 * `section_toggled` signal is returned as a list of (section, expanded)
 * events in the order they are emitted; `item_clicked` as a (section, item)
 * pair.
 */
module AccordionMenu {
  import opened Common
  import opened PyDict

  /** An item button: its icon and whether it carries the active-item style. */
  datatype ItemButton = ItemButton(icon: Option<string>, highlighted: bool)

  datatype Section = Section(expanded: bool, items: seq<Named<ItemButton>>)

  type Sections = seq<Named<Section>>

  type Toggle = (string, bool)

  /** `is_section_expanded`: an unknown section is not expanded. */
  function IsExpanded(d: Sections, name: string): (b: bool)
    ensures b ==> name in Names(d)
  {
    match Get(d, name)
    case None => false
    case Some(s) => s.expanded
  }

  /** The item buttons of a section; an unknown section has none. */
  function SectionItems(d: Sections, name: string): (r: seq<Named<ItemButton>>)
    ensures name !in Names(d) ==> r == []
  {
    match Get(d, name)
    case None => []
    case Some(s) => s.items
  }

  // ---------------------------------------------------------------------
  // toggling a section

  /** An entry as the loop in `_toggle_section` leaves it: an open section other than `keep` is collapsed. */
  function CollapseUnlessKept(e: Named<Section>, keep: string): Named<Section> {
    if e.name != keep && e.item.expanded then Named(e.name, e.item.(expanded := false)) else e
  }

  /** Every entry after that loop. */
  function CollapseOthers(d: Sections, keep: string): Sections {
    seq(|d|, i requires 0 <= i < |d| => CollapseUnlessKept(d[i], keep))
  }

  /** The `section_toggled(name, False)` events that loop emits, in dictionary order. */
  function CollapseEvents(d: Sections, keep: string): seq<Toggle> {
    if d == [] then []
    else
      var e := d[|d| - 1];
      CollapseEvents(d[..|d| - 1], keep) + (if e.name != keep && e.item.expanded then [(e.name, false)] else [])
  }

  /** The sections after a click on the header of `name`; an unknown name changes nothing. */
  function Toggled(d: Sections, name: string, allowMultiple: bool): Sections {
    match Get(d, name)
    case None => d
    case Some(s) =>
      var others := if !s.expanded && !allowMultiple then CollapseOthers(d, name) else d;
      Put(others, name, s.(expanded := !s.expanded))
  }

  /** The events of that click: the collapsed others, then the toggled section with its new state. */
  function ToggleEvents(d: Sections, name: string, allowMultiple: bool): seq<Toggle> {
    match Get(d, name)
    case None => []
    case Some(s) =>
      (if !s.expanded && !allowMultiple then CollapseEvents(d, name) else []) + [(name, !s.expanded)]
  }

  lemma CollapseEventsStep(d: Sections, i: nat, keep: string)
    requires i < |d|
    ensures CollapseEvents(d[..i + 1], keep)
            == CollapseEvents(d[..i], keep) + (if d[i].name != keep && d[i].item.expanded then [(d[i].name, false)] else [])
  {
    assert d[..i + 1][..i] == d[..i];
  }

  /** The state inside that loop: entries before `i` are done, the rest untouched, keys unchanged. */
  ghost predicate CollapsedUpTo(cur: Sections, snapshot: Sections, i: nat, keep: string) {
    |cur| == |snapshot| && i <= |snapshot| && Names(cur) == Names(snapshot)
    && (forall j :: 0 <= j < i ==> cur[j] == CollapseUnlessKept(snapshot[j], keep))
    && (forall j :: i <= j < |snapshot| ==> cur[j] == snapshot[j])
  }

  /** One round of that loop: collapsing entry `i` by its key is the same as replacing it in place. */
  lemma CollapseStep(cur: Sections, snapshot: Sections, i: nat, keep: string)
    requires IsDict(cur) && CollapsedUpTo(cur, snapshot, i, keep) && i < |snapshot|
    requires snapshot[i].name != keep && snapshot[i].item.expanded
    ensures var e := snapshot[i];
      Get(cur, e.name) == Some(e.item)
      && var next := Put(cur, e.name, e.item.(expanded := false));
      IsDict(next) && CollapsedUpTo(next, snapshot, i + 1, keep)
  {
    var e := snapshot[i];
    GetAt(cur, i);
    PutAt(cur, i, e.item.(expanded := false));
    PutIsDict(cur, e.name, e.item.(expanded := false));
    NamesUpdate(cur, i, Named(e.name, e.item.(expanded := false)));
  }

  lemma CollapsedAll(cur: Sections, snapshot: Sections, keep: string)
    requires CollapsedUpTo(cur, snapshot, |snapshot|, keep)
    ensures cur == CollapseOthers(snapshot, keep)
  {
  }

  /** Collapsing the others keeps every key in its place. */
  lemma CollapseOthersNames(d: Sections, keep: string)
    ensures Names(CollapseOthers(d, keep)) == Names(d)
  {
    var r := CollapseOthers(d, keep);
    assert forall i :: 0 <= i < |d| ==> Names(r)[i] == Names(d)[i];
  }

  /** After collapsing the others, `keep` is as it was and every other section is closed with its items. */
  lemma GetCollapseOthers(d: Sections, keep: string, n: string)
    requires IsDict(d)
    ensures var r := Get(CollapseOthers(d, keep), n);
      match Get(d, n)
      case None => r.None?
      case Some(s) => r == Some(if n == keep then s else s.(expanded := false))
  {
    var c := CollapseOthers(d, keep);
    CollapseOthersNames(d, keep);
    if n in Names(d) {
      var i := IndexOf(Names(d), n);
      GetAt(d, i);
      GetAt(c, i);
    }
  }

  /** The event list names exactly the open sections other than `keep`, each with `false`. */
  lemma {:induction false} CollapseEventsNameOpenOthers(d: Sections, keep: string, n: string, b: bool)
    ensures (n, b) in CollapseEvents(d, keep) <==>
              !b && n != keep && exists i :: 0 <= i < |d| && d[i].name == n && d[i].item.expanded
  {
    if d != [] {
      var init := d[..|d| - 1];
      CollapseEventsNameOpenOthers(init, keep, n, b);
      if exists i :: 0 <= i < |d| && d[i].name == n && d[i].item.expanded {
        var i :| 0 <= i < |d| && d[i].name == n && d[i].item.expanded;
        if i < |d| - 1 {
          assert init[i] == d[i];
        }
      }
      if exists i :: 0 <= i < |init| && init[i].name == n && init[i].item.expanded {
        var i :| 0 <= i < |init| && init[i].name == n && init[i].item.expanded;
        assert d[i] == init[i];
      }
    }
  }

  /** A click on a header flips that section and keeps every key and every section's items. */
  lemma ToggleFlips(d: Sections, name: string, allowMultiple: bool)
    requires IsDict(d) && name in Names(d)
    ensures var r := Toggled(d, name, allowMultiple);
      IsDict(r) && Names(r) == Names(d) && IsExpanded(r, name) == !IsExpanded(d, name)
      && forall n :: SectionItems(r, n) == SectionItems(d, n)
  {
    var s := Get(d, name).value;
    var others := if !s.expanded && !allowMultiple then CollapseOthers(d, name) else d;
    CollapseOthersNames(d, name);
    assert IsDict(others);
    PutIsDict(others, name, s.(expanded := !s.expanded));
    forall n
      ensures SectionItems(Toggled(d, name, allowMultiple), n) == SectionItems(d, n)
    {
      if others != d {
        GetCollapseOthers(d, name, n);
      }
    }
  }

  /** With a single open section allowed, a section clicked open is then the only open one. */
  lemma ToggleOpensOnlyOne(d: Sections, name: string)
    requires IsDict(d) && name in Names(d) && !IsExpanded(d, name)
    ensures forall n :: IsExpanded(Toggled(d, name, false), n) <==> n == name
  {
    forall n
      ensures IsExpanded(Toggled(d, name, false), n) <==> n == name
    {
      GetCollapseOthers(d, name, n);
    }
  }

  /** Closing a section, or opening one when several may be open, leaves the other sections alone. */
  lemma ToggleLeavesOthers(d: Sections, name: string, allowMultiple: bool, n: string)
    requires IsDict(d) && name in Names(d) && n != name
    requires allowMultiple || IsExpanded(d, name)
    ensures Get(Toggled(d, name, allowMultiple), n) == Get(d, n)
  {
  }

  /** When several sections may be open, a second click on a header restores the menu. */
  lemma ToggleTwiceRestores(d: Sections, name: string)
    requires IsDict(d)
    ensures Toggled(Toggled(d, name, true), name, true) == d
  {
    if name in Names(d) {
      var i := IndexOf(Names(d), name);
      var s := d[i].item;
      GetAt(d, i);
      PutAt(d, i, s.(expanded := !s.expanded));
      var e := d[i := Named(name, s.(expanded := !s.expanded))];
      assert IsDict(e) && e[i].name == name by {
        assert forall j :: 0 <= j < |d| ==> Names(e)[j] == Names(d)[j];
      }
      GetAt(e, i);
      PutAt(e, i, s);
      assert e[i := Named(name, s)] == d;
    }
  }

  // ---------------------------------------------------------------------
  // items

  /** `add_item`: a new button at the end of a known section. */
  function WithItem(d: Sections, section: string, item: string, icon: Option<string>): Sections {
    match Get(d, section)
    case None => d
    case Some(s) => Put(d, section, s.(items := s.items + [Named(item, ItemButton(icon, false))]))
  }

  /** Adding to an unknown section does nothing; otherwise the item goes last and nothing else changes. */
  lemma WithItemAppends(d: Sections, section: string, item: string, icon: Option<string>)
    ensures section !in Names(d) ==> WithItem(d, section, item, icon) == d
    ensures section in Names(d) ==>
              SectionItems(WithItem(d, section, item, icon), section) == SectionItems(d, section) + [Named(item, ItemButton(icon, false))]
    ensures forall n :: IsExpanded(WithItem(d, section, item, icon), n) == IsExpanded(d, n)
    ensures forall n :: n != section ==> Get(WithItem(d, section, item, icon), n) == Get(d, n)
  {
  }

  /** `remove_item`: the first button of that name leaves a known section. */
  function WithoutItem(d: Sections, section: string, item: string): Sections {
    match Get(d, section)
    case None => d
    case Some(s) => Put(d, section, s.(items := RemoveNamed(s.items, item)))
  }

  /** Exactly the first item of that name goes; the other sections and the section's state are untouched. */
  lemma WithoutItemRemovesFirst(d: Sections, section: string, item: string)
    ensures Names(SectionItems(WithoutItem(d, section, item), section)) == RemoveFirst(Names(SectionItems(d, section)), item)
    ensures forall n :: IsExpanded(WithoutItem(d, section, item), n) == IsExpanded(d, n)
    ensures forall n :: n != section ==> Get(WithoutItem(d, section, item), n) == Get(d, n)
  {
  }

  /** Adding an item and removing it again leaves the section's item names as they were. */
  lemma WithItemThenWithout(d: Sections, section: string, item: string, icon: Option<string>)
    requires item !in Names(SectionItems(d, section))
    ensures Names(SectionItems(WithoutItem(WithItem(d, section, item, icon), section, item), section))
            == Names(SectionItems(d, section))
  {
    if section in Names(d) {
      var sec := Get(d, section).value;
      var t := sec.items + [Named(item, ItemButton(icon, false))];
      var d1 := Put(d, section, sec.(items := t));
      assert WithItem(d, section, item, icon) == d1;
      assert Get(d1, section) == Some(sec.(items := t));
      var d2 := Put(d1, section, sec.(items := RemoveNamed(t, item)));
      assert WithoutItem(d1, section, item) == d2;
      assert SectionItems(d2, section) == RemoveNamed(t, item);
      RemoveNamedAppended(sec.items, Named(item, ItemButton(icon, false)));
    }
  }

  /** Removing a name that only the appended last entry holds gives back the earlier names. */
  lemma RemoveNamedAppended(items: seq<Named<ItemButton>>, x: Named<ItemButton>)
    requires x.name !in Names(items)
    ensures Names(RemoveNamed(items + [x], x.name)) == Names(items)
  {
    NamesAppend(items, [x]);
    RemoveFirstAfter(Names(items), x.name);
  }

  /** Adding an item to a section just assigned extends that assignment. */
  lemma WithItemOnPut(d: Sections, name: string, sec: Section, item: string, icon: Option<string>)
    ensures WithItem(Put(d, name, sec), name, item, icon) == Put(d, name, sec.(items := sec.items + [Named(item, ItemButton(icon, false))]))
  {
    PutPut(d, name, sec, sec.(items := sec.items + [Named(item, ItemButton(icon, false))]));
  }

  /** An item is clickable in a known section when the section holds a button at that position. */
  predicate HasItemAt(d: Sections, section: string, index: int) {
    0 <= index < |SectionItems(d, section)|
  }

  class AccordionMenuWidget {
    const allowMultiple: bool
    var sections: Sections

    /** No section name appears twice. */
    ghost predicate Valid()
      reads this
    {
      IsDict(sections)
    }

    constructor (allowMultiple0: bool)
      ensures Valid() && allowMultiple == allowMultiple0 && sections == []
    {
      allowMultiple := allowMultiple0;
      sections := [];
    }

    /** `add_section`: a section of that name, with no items, replaces any earlier one in its place. */
    method AddSection(name: string, expanded: bool)
      requires Valid()
      modifies this`sections
      ensures Valid()
      ensures sections == Put(old(sections), name, Section(expanded, []))
    {
      PutIsDict(sections, name, Section(expanded, []));
      sections := Put(sections, name, Section(expanded, []));
    }

    method AddItem(section: string, item: string, icon: Option<string>)
      requires Valid()
      modifies this`sections
      ensures Valid()
      ensures sections == WithItem(old(sections), section, item, icon)
    {
      var found := Get(sections, section);
      if found.None? {
        return;
      }
      var s := found.value;
      PutIsDict(sections, section, s.(items := s.items + [Named(item, ItemButton(icon, false))]));
      sections := Put(sections, section, s.(items := s.items + [Named(item, ItemButton(icon, false))]));
    }

    /** `_expand_section`: marks a known section open and emits its event. */
    method ExpandNow(name: string) returns (events: seq<Toggle>)
      requires Valid()
      modifies this`sections
      ensures Valid()
      ensures name !in Names(old(sections)) ==> sections == old(sections) && events == []
      ensures name in Names(old(sections)) ==>
                sections == Put(old(sections), name, Get(old(sections), name).value.(expanded := true))
                && events == [(name, true)]
    {
      var found := Get(sections, name);
      if found.None? {
        return [];
      }
      PutIsDict(sections, name, found.value.(expanded := true));
      sections := Put(sections, name, found.value.(expanded := true));
      events := [(name, true)];
    }

    /** `_collapse_section`: marks a known section closed and emits its event. */
    method CollapseNow(name: string) returns (events: seq<Toggle>)
      requires Valid()
      modifies this`sections
      ensures Valid()
      ensures name !in Names(old(sections)) ==> sections == old(sections) && events == []
      ensures name in Names(old(sections)) ==>
                sections == Put(old(sections), name, Get(old(sections), name).value.(expanded := false))
                && events == [(name, false)]
    {
      var found := Get(sections, name);
      if found.None? {
        return [];
      }
      PutIsDict(sections, name, found.value.(expanded := false));
      sections := Put(sections, name, found.value.(expanded := false));
      events := [(name, false)];
    }

    /** `_toggle_section`, the header click: see `Toggled` and the lemmas about it. */
    method ToggleSection(name: string) returns (events: seq<Toggle>)
      requires Valid()
      modifies this`sections
      ensures Valid()
      ensures sections == Toggled(old(sections), name, allowMultiple)
      ensures events == ToggleEvents(old(sections), name, allowMultiple)
    {
      var found := Get(sections, name);
      if found.None? {
        return [];
      }
      var s := found.value;
      var expanded := !s.expanded;
      events := [];
      if expanded && !allowMultiple {
        events := CollapseOthersLoop(name);
        GetCollapseOthers(old(sections), name, name);
      }
      var last: seq<Toggle>;
      if expanded {
        last := ExpandNow(name);
      } else {
        last := CollapseNow(name);
      }
      events := events + last;
    }

    /** The loop over the sections that collapses every open one but `keep`. */
    method CollapseOthersLoop(keep: string) returns (events: seq<Toggle>)
      requires Valid()
      modifies this`sections
      ensures Valid()
      ensures sections == CollapseOthers(old(sections), keep)
      ensures events == CollapseEvents(old(sections), keep)
    {
      var snapshot := sections;
      events := [];
      var i := 0;
      while i < |snapshot|
        invariant 0 <= i <= |snapshot| && Valid()
        invariant CollapsedUpTo(sections, snapshot, i, keep)
        invariant events == CollapseEvents(snapshot[..i], keep)
      {
        var e := snapshot[i];
        CollapseEventsStep(snapshot, i, keep);
        if e.name != keep && e.item.expanded {
          CollapseStep(sections, snapshot, i, keep);
          var more := CollapseNow(e.name);
          events := events + more;
        }
        i := i + 1;
      }
      assert snapshot[..i] == snapshot;
      CollapsedAll(sections, snapshot, keep);
    }

    /** `expand_section`: acts only on a known, collapsed section. */
    method ExpandSection(name: string) returns (events: seq<Toggle>)
      requires Valid()
      modifies this`sections
      ensures Valid()
      ensures name !in Names(old(sections)) || IsExpanded(old(sections), name) ==> sections == old(sections) && events == []
      ensures name in Names(old(sections)) && !IsExpanded(old(sections), name) ==>
                sections == Put(old(sections), name, Get(old(sections), name).value.(expanded := true))
                && events == [(name, true)]
    {
      events := [];
      if name in Names(sections) && !IsExpanded(sections, name) {
        events := ExpandNow(name);
      }
    }

    /** `collapse_section`: acts only on a known, expanded section. */
    method CollapseSection(name: string) returns (events: seq<Toggle>)
      requires Valid()
      modifies this`sections
      ensures Valid()
      ensures !IsExpanded(old(sections), name) ==> sections == old(sections) && events == []
      ensures IsExpanded(old(sections), name) ==>
                sections == Put(old(sections), name, Get(old(sections), name).value.(expanded := false))
                && events == [(name, false)]
    {
      events := [];
      if name in Names(sections) && IsExpanded(sections, name) {
        events := CollapseNow(name);
      }
    }

    method IsSectionExpanded(name: string) returns (b: bool)
      ensures b == IsExpanded(sections, name)
    {
      b := IsExpanded(sections, name);
    }

    method RemoveSection(name: string)
      requires Valid()
      modifies this`sections
      ensures Valid()
      ensures sections == Del(old(sections), name)
    {
      DelIsDict(sections, name);
      sections := Del(sections, name);
    }

    /** `remove_item`: the search loop finds the first button of that name. */
    method RemoveItem(section: string, item: string)
      requires Valid()
      modifies this`sections
      ensures Valid()
      ensures sections == WithoutItem(old(sections), section, item)
    {
      var found := Get(sections, section);
      if found.None? {
        return;
      }
      var s := found.value;
      var i := FindName(s.items, item);
      if i != -1 {
        PutIsDict(sections, section, s.(items := s.items[..i] + s.items[i + 1..]));
        sections := Put(sections, section, s.(items := s.items[..i] + s.items[i + 1..]));
      } else {
        PutIsDict(sections, section, s);
        GetAt(sections, IndexOf(Names(sections), section));
        PutAt(sections, IndexOf(Names(sections), section), s);
        assert sections[IndexOf(Names(sections), section) := Named(section, s)] == sections;
      }
    }

    /** `clear_section`: a known section keeps its state and loses every item. */
    method ClearSection(section: string)
      requires Valid()
      modifies this`sections
      ensures Valid()
      ensures section !in Names(old(sections)) ==> sections == old(sections)
      ensures section in Names(old(sections)) ==>
                sections == Put(old(sections), section, Get(old(sections), section).value.(items := []))
    {
      var found := Get(sections, section);
      if found.None? {
        return;
      }
      PutIsDict(sections, section, found.value.(items := []));
      sections := Put(sections, section, found.value.(items := []));
    }

    method GetSections() returns (names: seq<string>)
      ensures names == Names(sections)
    {
      names := Names(sections);
    }

    method GetSectionItems(section: string) returns (names: seq<string>)
      ensures names == Names(SectionItems(sections, section))
    {
      names := Names(SectionItems(sections, section));
    }

    /** A click on an item button emits its section and name. */
    method ClickItem(section: string, index: int) returns (clicked: Option<(string, string)>)
      ensures HasItemAt(sections, section, index) ==> clicked == Some((section, SectionItems(sections, section)[index].name))
      ensures !HasItemAt(sections, section, index) ==> clicked == None
    {
      if HasItemAt(sections, section, index) {
        return Some((section, SectionItems(sections, section)[index].name));
      }
      return None;
    }
  }

  // ---------------------------------------------------------------------
  // SimpleAccordion

  /** An entry of `add_section_with_items`: a string, a dictionary with optional name and icon, or anything else. */
  datatype ItemSpec = TextItem(text: string) | DictItem(name: Option<string>, icon: Option<string>) | OtherItem

  /** The buttons those entries add: a missing dictionary name is "", other entries are skipped. */
  function SpecItems(specs: seq<ItemSpec>): (r: seq<Named<ItemButton>>)
    ensures |r| <= |specs|
    ensures (forall i :: 0 <= i < |specs| ==> !specs[i].OtherItem?) ==> |r| == |specs|
  {
    if specs == [] then []
    else
      var init := SpecItems(specs[..|specs| - 1]);
      assert forall i :: 0 <= i < |specs| - 1 ==> specs[..|specs| - 1][i] == specs[i];
      match specs[|specs| - 1]
      case TextItem(t) => init + [Named(t, ItemButton(None, false))]
      case DictItem(n, icon) => init + [Named(if n.Some? then n.value else "", ItemButton(icon, false))]
      case OtherItem => init
  }

  /** A list of plain strings becomes those item names, in order. */
  lemma {:induction false} TextItemsInOrder(texts: seq<string>)
    ensures Names(SpecItems(seq(|texts|, i requires 0 <= i < |texts| => TextItem(texts[i])))) == texts
  {
    var specs := seq(|texts|, i requires 0 <= i < |texts| => TextItem(texts[i]));
    if texts != [] {
      var init := texts[..|texts| - 1];
      assert specs[..|specs| - 1] == seq(|init|, i requires 0 <= i < |init| => TextItem(init[i]));
      TextItemsInOrder(init);
      NamesAppend(SpecItems(specs[..|specs| - 1]), [Named(texts[|texts| - 1], ItemButton(None, false))]);
      assert init + [texts[|texts| - 1]] == texts;
    }
  }

  /** One more entry adds at most its own button at the end. */
  lemma SpecItemsStep(specs: seq<ItemSpec>, i: nat)
    requires i < |specs|
    ensures SpecItems(specs[..i + 1]) == match specs[i]
      case TextItem(t) => SpecItems(specs[..i]) + [Named(t, ItemButton(None, false))]
      case DictItem(n, icon) => SpecItems(specs[..i]) + [Named(if n.Some? then n.value else "", ItemButton(icon, false))]
      case OtherItem => SpecItems(specs[..i])
  {
    assert specs[..i + 1][..i] == specs[..i];
  }

  class SimpleAccordion {
    const menu: AccordionMenuWidget

    ghost predicate Valid()
      reads this, menu
    {
      menu.Valid() && !menu.allowMultiple
    }

    constructor ()
      ensures Valid() && menu.sections == [] && fresh(menu)
    {
      menu := new AccordionMenuWidget(false);
    }

    /** `add_section_with_items`: a fresh section holding the buttons of the accepted entries. */
    method AddSectionWithItems(name: string, specs: seq<ItemSpec>, expanded: bool)
      requires Valid()
      modifies menu`sections
      ensures Valid()
      ensures menu.sections == Put(old(menu.sections), name, Section(expanded, SpecItems(specs)))
    {
      ghost var d := menu.sections;
      menu.AddSection(name, expanded);
      var i := 0;
      while i < |specs|
        invariant 0 <= i <= |specs| && Valid()
        invariant menu.sections == Put(d, name, Section(expanded, SpecItems(specs[..i])))
      {
        SpecItemsStep(specs, i);
        match specs[i] {
          case TextItem(t) =>
            WithItemOnPut(d, name, Section(expanded, SpecItems(specs[..i])), t, None);
            menu.AddItem(name, t, None);
          case DictItem(n, icon) =>
            WithItemOnPut(d, name, Section(expanded, SpecItems(specs[..i])), if n.Some? then n.value else "", icon);
            menu.AddItem(name, if n.Some? then n.value else "", icon);
          case OtherItem =>
        }
        i := i + 1;
      }
      assert specs[..i] == specs;
    }
  }

  // ---------------------------------------------------------------------
  // SettingsAccordion

  /** The item text of one setting: "key: value". */
  function SettingText(key: string, value: string): string {
    key + ": " + value
  }

  /** The key of a setting is the text before its first ':' when the key holds none. */
  lemma SettingTextKey(key: string, value: string)
    requires ':' !in key
    ensures ':' in SettingText(key, value) && SettingText(key, value)[..IndexOf(SettingText(key, value), ':')] == key
  {
    var t := SettingText(key, value);
    assert t[|key|] == ':';
    assert forall k :: 0 <= k < |key| ==> t[k] == key[k];
    assert IndexOf(t, ':') == |key|;
  }

  function SettingItems(settings: seq<(string, string)>): (r: seq<Named<ItemButton>>)
    ensures |r| == |settings|
    ensures forall i :: 0 <= i < |settings| ==> r[i] == Named(SettingText(settings[i].0, settings[i].1), ItemButton(None, false))
  {
    if settings == [] then []
    else SettingItems(settings[..|settings| - 1]) + [Named(SettingText(settings[|settings| - 1].0, settings[|settings| - 1].1), ItemButton(None, false))]
  }

  class SettingsAccordion {
    const menu: AccordionMenuWidget

    ghost predicate Valid()
      reads this, menu
    {
      menu.Valid() && menu.allowMultiple
    }

    constructor ()
      ensures Valid() && menu.sections == [] && fresh(menu)
    {
      menu := new AccordionMenuWidget(true);
    }

    /** `add_settings_group`: a collapsed section with one "key: value" item per setting, in order. */
    method AddSettingsGroup(group: string, settings: seq<(string, string)>)
      requires Valid()
      modifies menu`sections
      ensures Valid()
      ensures menu.sections == Put(old(menu.sections), group, Section(false, SettingItems(settings)))
    {
      ghost var d := menu.sections;
      menu.AddSection(group, false);
      var i := 0;
      while i < |settings|
        invariant 0 <= i <= |settings| && Valid()
        invariant menu.sections == Put(d, group, Section(false, SettingItems(settings[..i])))
      {
        WithItemOnPut(d, group, Section(false, SettingItems(settings[..i])), SettingText(settings[i].0, settings[i].1), None);
        assert SettingItems(settings[..i + 1]) == SettingItems(settings[..i]) + [Named(SettingText(settings[i].0, settings[i].1), ItemButton(None, false))];
        menu.AddItem(group, SettingText(settings[i].0, settings[i].1), None);
        i := i + 1;
      }
      assert settings[..i] == settings;
    }
  }

  // ---------------------------------------------------------------------
  // NavigationAccordion

  /** The section holds an item of that name. */
  predicate HasItem(d: Sections, section: string, item: string) {
    item in Names(SectionItems(d, section))
  }

  /** Restyles the first item of that name in a known section; anything else is unchanged. */
  function Styled(d: Sections, section: string, item: string, on: bool): Sections {
    match Get(d, section)
    case None => d
    case Some(s) =>
      if item in Names(s.items) then
        var i := IndexOf(Names(s.items), item);
        Put(d, section, s.(items := s.items[i := Named(item, s.items[i].item.(highlighted := on))]))
      else d
  }

  /** Restyling marks exactly the first match and keeps the other buttons. */
  lemma StyledMarksFirstMatch(d: Sections, section: string, item: string, on: bool)
    requires HasItem(d, section, item)
    ensures var items := SectionItems(Styled(d, section, item, on), section);
      var before := SectionItems(d, section);
      var i := IndexOf(Names(before), item);
      |items| == |before| && items[i] == Named(item, before[i].item.(highlighted := on))
      && forall j :: 0 <= j < |items| && j != i ==> items[j] == before[j]
  {
  }

  /** Restyling keeps every section's item names and leaves the other sections alone. */
  lemma StyledKeepsNames(d: Sections, section: string, item: string, on: bool, n: string)
    ensures Names(SectionItems(Styled(d, section, item, on), n)) == Names(SectionItems(d, n))
    ensures n != section ==> Get(Styled(d, section, item, on), n) == Get(d, n)
    ensures IsExpanded(Styled(d, section, item, on), n) == IsExpanded(d, n)
  {
    if HasItem(d, section, item) {
      var s := Get(d, section).value;
      var i := IndexOf(Names(s.items), item);
      NamesUpdate(s.items, i, Named(item, s.items[i].item.(highlighted := on)));
    }
  }

  class NavigationAccordion {
    const menu: AccordionMenuWidget
    var active: Option<(string, string)>

    ghost predicate Valid()
      reads this, menu
    {
      menu.Valid() && !menu.allowMultiple
    }

    constructor ()
      ensures Valid() && menu.sections == [] && active == None && fresh(menu)
    {
      menu := new AccordionMenuWidget(false);
      active := None;
    }

    /**
     * `set_active_item`: the previously active item loses its style; the
     * new item is styled and recorded only when its section holds it.
     * An unknown item thus leaves the old one recorded but unstyled.
     */
    method SetActiveItem(section: string, item: string)
      requires Valid()
      modifies menu`sections, this`active
      ensures Valid()
      ensures var cleared := if old(active).Some? then Styled(old(menu.sections), old(active).value.0, old(active).value.1, false) else old(menu.sections);
        menu.sections == Styled(cleared, section, item, true)
        && active == if HasItem(cleared, section, item) then Some((section, item)) else old(active)
    {
      if active.Some? {
        var _ := Restyle(active.value.0, active.value.1, false);
      }
      var found := Restyle(section, item, true);
      if found {
        active := Some((section, item));
      }
    }

    /** The search loop over a section's items, restyling the first match. */
    method Restyle(section: string, item: string, on: bool) returns (found: bool)
      requires Valid()
      modifies menu`sections
      ensures Valid()
      ensures found == HasItem(old(menu.sections), section, item)
      ensures menu.sections == Styled(old(menu.sections), section, item, on)
    {
      var d := menu.sections;
      var got := Get(d, section);
      if got.None? {
        return false;
      }
      var s := got.value;
      var i := FindName(s.items, item);
      if i == -1 {
        return false;
      }
      var t := s.items[i := Named(item, s.items[i].item.(highlighted := on))];
      PutIsDict(d, section, s.(items := t));
      menu.sections := Put(d, section, s.(items := t));
      found := true;
    }
  }
}
