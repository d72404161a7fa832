/**
 * A sidebar of item buttons, optionally sorted into collapsible groups,
 * with one active item, and a button that narrows the whole bar.
 *
 * Items and groups live in insertion-ordered dictionaries (module PyDict).
 * `item_clicked` and `group_toggled` are returned by the methods that emit
 * them.
 */
module SidebarNav {
  import opened Common
  import opened PyDict

  const ExpandedWidth := 250
  const CollapsedWidth := 60

  /**
   * An item: the group it was added under, its icon and tooltip, whether its
   * button carries the active style, and the group whose list holds the
   * button (None for the top level of the bar).
   */
  datatype ItemInfo = ItemInfo(group: Option<string>, icon: Option<string>, tooltip: Option<string>,
                               highlighted: bool, container: Option<string>)

  type Items = seq<Named<ItemInfo>>

  /** Each group's expanded flag. */
  type Groups = seq<Named<bool>>

  /** Python truthiness of an optional string: present and not empty. */
  predicate Truthy(s: Option<string>) {
    s.Some? && s.value != ""
  }

  /** The new item's button goes into its group's list when that group exists, else onto the bar. */
  function NewItem(group: Option<string>, icon: Option<string>, groups: Groups): (info: ItemInfo)
    ensures info.container.Some? <==> Truthy(group) && group.value in Names(groups)
    ensures info.container.Some? ==> info.container == group
    ensures info.group == group && !info.highlighted
  {
    ItemInfo(group, icon, None, false, if Truthy(group) && group.value in Names(groups) then group else None)
  }

  // ---------------------------------------------------------------------
  // groups

  function GroupToggled(groups: Groups, name: string): Groups {
    match Get(groups, name)
    case None => groups
    case Some(e) => Put(groups, name, !e)
  }

  /** `_toggle_group` flips a known group and leaves the rest; an unknown group changes nothing. */
  lemma GroupToggleFlips(groups: Groups, name: string)
    requires IsDict(groups)
    ensures name !in Names(groups) ==> GroupToggled(groups, name) == groups
    ensures name in Names(groups) ==> Get(GroupToggled(groups, name), name) == Some(!Get(groups, name).value)
    ensures forall n :: n != name ==> Get(GroupToggled(groups, name), n) == Get(groups, n)
    ensures Names(GroupToggled(groups, name)) == Names(groups)
  {
  }

  /** Two clicks on a group header restore the groups. */
  lemma GroupToggleTwice(groups: Groups, name: string)
    requires IsDict(groups)
    ensures GroupToggled(GroupToggled(groups, name), name) == groups
  {
    if name in Names(groups) {
      var e := Get(groups, name).value;
      PutPut(groups, name, !e, e);
      PutSame(groups, name, e);
    }
  }

  // ---------------------------------------------------------------------
  // the active item

  predicate IsHighlighted(items: Items, name: string) {
    var got := Get(items, name);
    got.Some? && got.value.highlighted
  }

  /** Gives a registered item's button the active style, or the plain style; anything else is unchanged. */
  function Styled(items: Items, name: string, on: bool): Items {
    match Get(items, name)
    case None => items
    case Some(info) => Put(items, name, info.(highlighted := on))
  }

  /**
   * `_on_item_clicked`'s restyling: a truthy previous active item loses its
   * style, then the clicked item, when registered, gains it.
   */
  function Clicked(items: Items, active: Option<string>, name: string): Items {
    var cleared := if Truthy(active) then Styled(items, active.value, false) else items;
    Styled(cleared, name, true)
  }

  lemma StyledFacts(items: Items, name: string, on: bool)
    requires IsDict(items)
    ensures IsDict(Styled(items, name, on)) && Names(Styled(items, name, on)) == Names(items)
    ensures forall n :: IsHighlighted(Styled(items, name, on), n) <==> if n == name then on && name in Names(items) else IsHighlighted(items, n)
  {
    if name in Names(items) {
      PutIsDict(items, name, Get(items, name).value.(highlighted := on));
    }
  }

  /** No button but the active item's carries the active style. */
  ghost predicate OnlyActiveHighlighted(items: Items, active: Option<string>) {
    forall n :: IsHighlighted(items, n) ==> active == Some(n)
  }

  /** A click keeps the active style on the active item alone, unless the previous active name was "". */
  lemma ClickKeepsHighlightOnActive(items: Items, active: Option<string>, name: string)
    requires IsDict(items) && OnlyActiveHighlighted(items, active) && active != Some("")
    ensures OnlyActiveHighlighted(Clicked(items, active, name), Some(name))
    ensures IsHighlighted(Clicked(items, active, name), name) <==> name in Names(items)
  {
    var cleared := if Truthy(active) then Styled(items, active.value, false) else items;
    if Truthy(active) {
      StyledFacts(items, active.value, false);
    }
    StyledFacts(cleared, name, true);
  }

  /**
   * The truthiness test skips un-styling an item named "": after clicking
   * it and then another registered item, both buttons carry the active style.
   */
  lemma EmptyNamedItemKeepsHighlight()
    ensures var info := ItemInfo(None, None, None, false, None);
      var items := [Named("", info.(highlighted := true)), Named("b", info)];
      var after := Clicked(items, Some(""), "b");
      IsHighlighted(after, "") && IsHighlighted(after, "b")
  {
    var info := ItemInfo(None, None, None, false, None);
    var items := [Named("", info.(highlighted := true)), Named("b", info)];
    assert Get(items, "") == Some(info.(highlighted := true));
    assert Get(items, "b") == Some(info) by {
      assert items[1..] == [Named("b", info)];
    }
    var after := Put(items, "b", info.(highlighted := true));
    assert Clicked(items, Some(""), "b") == after;
    assert Get(after, "") == Get(items, "");
  }

  /** `remove_item` forgets the active name only when it removes that item. */
  function ActiveAfterRemove(active: Option<string>, name: string, items: Items): (a: Option<string>)
    ensures a == None <==> active == None || (active == Some(name) && name in Names(items))
    ensures a != None ==> a == active
  {
    if name in Names(items) && active == Some(name) then None else active
  }

  // ---------------------------------------------------------------------
  // removing a group's items

  /** The names of the items added under group `g`, in insertion order (the list comprehension in `remove_group`). */
  function GroupMembers(items: Items, g: string): (r: seq<string>)
    ensures |r| <= |items|
  {
    if items == [] then []
    else (if items[0].item.group == Some(g) then [items[0].name] else []) + GroupMembers(items[1..], g)
  }

  /** The items still present while `remove_group` works through `pending`: those of other groups and those not yet removed. */
  function KeepItems(items: Items, g: string, pending: seq<string>): Items {
    if items == [] then []
    else
      var e := items[0];
      (if e.item.group != Some(g) || e.name in pending then [e] else []) + KeepItems(items[1..], g, pending)
  }

  /** The items that survive removing group `g`. */
  function WithoutGroup(items: Items, g: string): Items {
    KeepItems(items, g, [])
  }

  lemma {:induction false} GroupMembersSpec(items: Items, g: string, x: string)
    requires IsDict(items)
    ensures x in GroupMembers(items, g) <==> var got := Get(items, x); got.Some? && got.value.group == Some(g)
  {
    if items != [] {
      assert Names(items) == [items[0].name] + Names(items[1..]);
      DistinctTail(Names(items));
      GroupMembersSpec(items[1..], g, x);
    }
  }

  lemma {:induction false} GroupMembersDistinct(items: Items, g: string)
    requires IsDict(items)
    ensures Distinct(GroupMembers(items, g))
  {
    if items != [] {
      assert Names(items) == [items[0].name] + Names(items[1..]);
      DistinctTail(Names(items));
      GroupMembersDistinct(items[1..], g);
      if items[0].item.group == Some(g) {
        GroupMembersSpec(items[1..], g, items[0].name);
        DistinctCons(items[0].name, GroupMembers(items[1..], g));
      }
    }
  }

  /** A lookup after the removal finds nothing for a removed member, and the old entry otherwise. */
  lemma {:induction false} GetKeepItems(items: Items, g: string, pending: seq<string>, n: string)
    requires IsDict(items)
    ensures var got := Get(items, n);
      Get(KeepItems(items, g, pending), n) == if got.Some? && got.value.group == Some(g) && n !in pending then None else got
  {
    if items != [] {
      var e, r := items[0], items[1..];
      IsDictTail(items);
      GetKeepItems(r, g, pending, n);
      var rest := KeepItems(r, g, pending);
      GetCons(e, r, n);
      assert items == [e] + r;
      var got := Get(items, n);
      var kept := KeepItems(items, g, pending);
      if e.item.group != Some(g) || e.name in pending {
        assert kept == [e] + rest;
        GetCons(e, rest, n);
      } else {
        assert kept == rest;
      }
      if e.name == n {
        assert got == Some(e.item);
        assert Get(r, n) == None;
      } else {
        assert got == Get(r, n);
      }
    }
  }

  /** Removing group `g` drops exactly the items added under `g` and keeps the others. */
  lemma WithoutGroupSpec(items: Items, g: string, n: string)
    requires IsDict(items)
    ensures var got := Get(items, n);
      Get(WithoutGroup(items, g), n) == if got.Some? && got.value.group == Some(g) then None else got
  {
    GetKeepItems(items, g, [], n);
  }

  /** Only membership of the item names in `pending` matters. */
  lemma {:induction false} KeepItemsSame(items: Items, g: string, p: seq<string>, q: seq<string>)
    requires forall x :: x in Names(items) ==> (x in p <==> x in q)
    ensures KeepItems(items, g, p) == KeepItems(items, g, q)
  {
    if items != [] {
      assert Names(items) == [items[0].name] + Names(items[1..]);
      KeepItemsSame(items[1..], g, p, q);
    }
  }

  /** With every member of `g` pending, nothing is removed yet. */
  lemma {:induction false} KeepItemsAll(items: Items, g: string, pending: seq<string>)
    requires forall x :: x in GroupMembers(items, g) ==> x in pending
    ensures KeepItems(items, g, pending) == items
  {
    if items != [] {
      KeepItemsAll(items[1..], g, pending);
      assert [items[0]] + items[1..] == items;
    }
  }

  /** `KeepItems` on a dictionary split into its first entry and the rest. */
  lemma KeepItemsCons(items: Items, g: string, p: seq<string>)
    requires items != []
    ensures var e := items[0];
      KeepItems(items, g, p) == if e.item.group != Some(g) || e.name in p then [e] + KeepItems(items[1..], g, p) else KeepItems(items[1..], g, p)
  {
  }

  /** One round of the loop in `remove_group`: deleting the next member takes it out of `pending`. */
  lemma {:induction false} DelKeepItems(items: Items, g: string, p: seq<string>, q: seq<string>, n: string)
    requires IsDict(items) && n in p
    requires var got := Get(items, n); got.Some? && got.value.group == Some(g)
    requires forall x :: x in q <==> x in p && x != n
    ensures Del(KeepItems(items, g, p), n) == KeepItems(items, g, q)
  {
    var e, r := items[0], items[1..];
    IsDictTail(items);
    assert items == [e] + r;
    GetCons(e, r, n);
    KeepItemsCons(items, g, p);
    KeepItemsCons(items, g, q);
    if e.name == n {
      KeepItemsSame(r, g, p, q);
      DelCons(e, KeepItems(r, g, p), n);
    } else {
      DelKeepItems(r, g, p, q, n);
      DelCons(e, KeepItems(r, g, p), n);
    }
  }

  /** The loop of `remove_group` at member `i`: that member is still present, and deleting it advances `pending`. */
  lemma RemoveGroupStep(d: Items, g: string, members: seq<string>, i: nat)
    requires IsDict(d) && members == GroupMembers(d, g) && i < |members|
    ensures members[i] in Names(KeepItems(d, g, members[i..]))
    ensures Del(KeepItems(d, g, members[i..]), members[i]) == KeepItems(d, g, members[i + 1..])
  {
    var n := members[i];
    var cur := KeepItems(d, g, members[i..]);
    GroupMembersSpec(d, g, n);
    GroupMembersDistinct(d, g);
    assert n in members[i..];
    GetKeepItems(d, g, members[i..], n);
    assert Get(cur, n) == Get(d, n) != None;
    assert n !in members[i + 1..];
    assert forall x :: x in members[i + 1..] <==> x in members[i..] && x != n;
    DelKeepItems(d, g, members[i..], members[i + 1..], n);
  }

  class SidebarNavWidget {
    const collapsible: bool
    var collapsed: bool
    var width: int
    var groups: Groups
    var items: Items
    var active: Option<string>

    ghost predicate Valid()
      reads this
    {
      IsDict(groups) && IsDict(items)
    }

    constructor (collapsible0: bool)
      ensures Valid() && collapsible == collapsible0
      ensures !collapsed && width == ExpandedWidth && groups == [] && items == [] && active == None
    {
      collapsible := collapsible0;
      collapsed, width := false, ExpandedWidth;
      groups, items, active := [], [], None;
    }

    /** `add_group`: a group of that name replaces any earlier one in its place. */
    method AddGroup(name: string, expanded: bool)
      requires Valid()
      modifies this`groups
      ensures Valid() && groups == Put(old(groups), name, expanded)
    {
      PutIsDict(groups, name, expanded);
      groups := Put(groups, name, expanded);
    }

    /** `add_item`: an item of that name replaces any earlier one, with a fresh unstyled button. */
    method AddItem(name: string, icon: Option<string>, group: Option<string>)
      requires Valid()
      modifies this`items
      ensures Valid() && items == Put(old(items), name, NewItem(group, icon, groups))
    {
      PutIsDict(items, name, NewItem(group, icon, groups));
      items := Put(items, name, NewItem(group, icon, groups));
    }

    /** `_toggle_group`, the group header click: a known group flips and its new state is emitted. */
    method ToggleGroup(name: string) returns (toggled: Option<(string, bool)>)
      requires Valid()
      modifies this`groups
      ensures Valid() && groups == GroupToggled(old(groups), name)
      ensures toggled == if name in Names(old(groups)) then Some((name, !Get(old(groups), name).value)) else None
    {
      var got := Get(groups, name);
      if got.None? {
        return None;
      }
      PutIsDict(groups, name, !got.value);
      groups := Put(groups, name, !got.value);
      toggled := Some((name, !got.value));
    }

    /** `_on_item_clicked`: restyles, makes the name active even when no item has it, and emits it. */
    method ClickItem(name: string) returns (clicked: string)
      requires Valid()
      modifies this`items, this`active
      ensures Valid() && items == Clicked(old(items), old(active), name)
      ensures active == Some(name) && clicked == name
    {
      if Truthy(active) {
        StyledFacts(items, active.value, false);
        items := Styled(items, active.value, false);
      }
      StyledFacts(items, name, true);
      items := Styled(items, name, true);
      active := Some(name);
      clicked := name;
    }

    method SetActiveItem(name: string) returns (clicked: string)
      requires Valid()
      modifies this`items, this`active
      ensures Valid() && items == Clicked(old(items), old(active), name)
      ensures active == Some(name) && clicked == name
    {
      clicked := ClickItem(name);
    }

    method GetActiveItem() returns (a: Option<string>)
      ensures a == active
    {
      a := active;
    }

    /** `_toggle_collapse`: flips the flag and narrows the bar to 60 or widens it to 250. */
    method ToggleCollapse()
      modifies this`collapsed, this`width
      ensures collapsed == !old(collapsed)
      ensures width == if collapsed then CollapsedWidth else ExpandedWidth
    {
      collapsed := !collapsed;
      width := if collapsed then CollapsedWidth else ExpandedWidth;
    }

    /** `remove_item`: a registered item goes, and stops being active if it was. */
    method RemoveItem(name: string)
      requires Valid()
      modifies this`items, this`active
      ensures Valid() && items == Del(old(items), name)
      ensures active == ActiveAfterRemove(old(active), name, old(items))
    {
      if name in Names(items) {
        DelIsDict(items, name);
        items := Del(items, name);
        if active == Some(name) {
          active := None;
        }
      }
    }

    /** `remove_group`: every item added under a known group goes, then the group itself. */
    method RemoveGroup(name: string)
      requires Valid()
      modifies this`items, this`active, this`groups
      ensures Valid() && groups == Del(old(groups), name)
      ensures name !in Names(old(groups)) ==> items == old(items) && active == old(active)
      ensures name in Names(old(groups)) ==> items == WithoutGroup(old(items), name)
      ensures name in Names(old(groups)) ==>
                active == if old(active).Some? && old(active).value in GroupMembers(old(items), name) then None else old(active)
    {
      if name !in Names(groups) {
        return;
      }
      ghost var d := items;
      ghost var a := active;
      var members := GroupMembers(items, name);
      GroupMembersDistinct(items, name);
      KeepItemsAll(items, name, members);
      var i := 0;
      while i < |members|
        invariant 0 <= i <= |members| && Valid()
        invariant items == KeepItems(d, name, members[i..]) && groups == old(groups)
        invariant active == if a.Some? && a.value in members[..i] then None else a
      {
        RemoveGroupStep(d, name, members, i);
        TakeSnoc(members, i);
        RemoveItem(members[i]);
        i := i + 1;
      }
      assert members[..i] == members && members[i..] == [];
      DelIsDict(groups, name);
      groups := Del(groups, name);
    }

    /** `clear`: removes every item, then every group; an active name that is no item stays active. */
    method Clear()
      requires Valid()
      modifies this`items, this`active, this`groups
      ensures Valid() && items == [] && groups == []
      ensures active == if old(active).Some? && old(active).value in Names(old(items)) then None else old(active)
    {
      var keys := items;
      ghost var a := active;
      var i := 0;
      while i < |keys|
        invariant 0 <= i <= |keys| && Valid()
        invariant items == keys[i..]
        invariant active == if a.Some? && a.value in Names(keys)[..i] then None else a
      {
        assert Names(keys[i..]) == [keys[i].name] + Names(keys[i + 1..]) by {
          assert keys[i..][1..] == keys[i + 1..];
        }
        assert Names(keys)[..i + 1] == Names(keys)[..i] + [keys[i].name];
        RemoveItem(keys[i].name);
        i := i + 1;
      }
      assert Names(keys)[..i] == Names(keys);
      var gs := groups;
      var j := 0;
      while j < |gs|
        invariant 0 <= j <= |gs| && Valid()
        invariant items == [] && groups == gs[j..]
        invariant active == if a.Some? && a.value in Names(keys) then None else a
      {
        assert Names(gs[j..]) == [gs[j].name] + Names(gs[j + 1..]) by {
          assert gs[j..][1..] == gs[j + 1..];
        }
        RemoveGroup(gs[j].name);
        j := j + 1;
      }
    }
  }

  /** A registered item clicked and then removed leaves no active item. */
  lemma ClickThenRemoveClearsActive(items: Items, active: Option<string>, name: string)
    requires IsDict(items) && name in Names(items)
    ensures ActiveAfterRemove(Some(name), name, Clicked(items, active, name)) == None
  {
    var cleared := if Truthy(active) then Styled(items, active.value, false) else items;
    if Truthy(active) {
      StyledFacts(items, active.value, false);
    }
    StyledFacts(cleared, name, true);
  }

  /**
   * A narrow bar without the collapse button: it is 60 pixels wide from the
   * start, while its collapsed flag stays false.
   */
  class CompactSidebarNav {
    const nav: SidebarNavWidget

    ghost predicate Valid()
      reads this, nav
    {
      nav.Valid() && !nav.collapsible
    }

    constructor ()
      ensures Valid() && fresh(nav)
      ensures nav.width == CollapsedWidth && !nav.collapsed && nav.items == [] && nav.groups == [] && nav.active == None
    {
      nav := new SidebarNavWidget(false);
      new;
      nav.width := CollapsedWidth;
    }

    /** `add_item` on the top level, with a tooltip kept only when it is truthy. */
    method AddItem(name: string, icon: Option<string>, tooltip: Option<string>)
      requires Valid()
      modifies nav`items
      ensures Valid()
      ensures nav.items == Put(old(nav.items), name, NewItem(None, icon, nav.groups).(tooltip := if Truthy(tooltip) then tooltip else None))
    {
      nav.AddItem(name, icon, None);
      if Truthy(tooltip) {
        var info := Get(nav.items, name).value;
        PutPut(old(nav.items), name, NewItem(None, icon, nav.groups), info.(tooltip := tooltip));
        PutIsDict(nav.items, name, info.(tooltip := tooltip));
        nav.items := Put(nav.items, name, info.(tooltip := tooltip));
      }
    }
  }
}
