/**
 * The keyboard shortcut helper: a registry of named shortcuts (key
 * sequence, description, category) and of the names listed under each
 * category, a tree grouped by category that a search filters, a quick-help
 * mode that looks up the shortcuts bound to a pressed key, a text export,
 * and a capture widget that records one key combination.
 *
 * Both registries are Python dictionaries, kept in insertion order. Key
 * presses arrive as the text `QKeySequence.toString()` gives; the
 * conversion from key codes is not modelled, nor is the 300 ms search
 * debounce (the timer firing is a call to `PerformSearch`).
 */
module ShortcutHelper {
  import opened Common
  import opened PyDict

  /** A registered shortcut: `(key_sequence, description, category)`. */
  datatype Shortcut = Shortcut(key: string, description: string, category: string)

  /** `_shortcuts` and `_categories`. */
  datatype Registry = Registry(shortcuts: Dict<Shortcut>, categories: Dict<seq<string>>)

  /** A shortcut row of the tree, and a category with its rows. */
  datatype Row = Row(name: string, key: string, description: string)
  datatype Group = Group(category: string, rows: seq<Row>)

  /** Every registered shortcut is listed under its own category. */
  ghost predicate Registered(r: Registry) {
    forall n {:trigger Get(r.shortcuts, n)} :: n in Names(r.shortcuts) ==>
      var c := Get(r.shortcuts, n).value.category;
      c in Names(r.categories) && n in Get(r.categories, c).value
  }

  /** The list a dictionary of lists holds under `k`, or none. */
  function ListAt(d: seq<Named<seq<string>>>, k: string): (l: seq<string>)
    ensures k !in Names(d) ==> l == []
  {
    match Get(d, k)
    case Some(l) => l
    case None => []
  }

  /** Every name a category lists is registered. */
  ghost predicate Listed(r: Registry) {
    forall c, n {:trigger n in ListAt(r.categories, c)} ::
      c in Names(r.categories) && n in ListAt(r.categories, c) ==> n in Names(r.shortcuts)
  }

  /** The same, entry by entry. */
  ghost predicate ListedAt(cats: seq<Named<seq<string>>>, sc: seq<Named<Shortcut>>) {
    forall i, n :: 0 <= i < |cats| && n in cats[i].item ==> n in Names(sc)
  }

  lemma ListedAtIff(r: Registry)
    ensures Listed(r) <==> ListedAt(r.categories, r.shortcuts)
  {
    var cats := r.categories;
    if Listed(r) {
      forall i, n | 0 <= i < |cats| && n in cats[i].item ensures n in Names(r.shortcuts) {
        GetAt(cats, i);
        assert Names(cats)[i] == cats[i].name;
        assert n in ListAt(cats, cats[i].name);
      }
    }
    if ListedAt(cats, r.shortcuts) {
      forall c, n | c in Names(cats) && n in ListAt(cats, c) ensures n in Names(r.shortcuts) {
        var i := IndexOf(Names(cats), c);
        GetAt(cats, i);
      }
    }
  }

  function Empty(): (r: Registry)
    ensures Registered(r) && Listed(r)
  {
    Registry([], [])
  }

  /**
   * `add_shortcut`: the name maps to the new shortcut (keeping its place
   * when it was registered before), and is appended to its category's
   * list, created last when new, even if that list already holds it.
   */
  function Add(r: Registry, name: string, key: string, description: string, category: string): (r': Registry)
    ensures Names(r'.shortcuts) == if name in Names(r.shortcuts) then Names(r.shortcuts) else Names(r.shortcuts) + [name]
    ensures Get(r'.shortcuts, name) == Some(Shortcut(key, description, category))
    ensures ListAt(r'.categories, category) == ListAt(r.categories, category) + [name]
    ensures Names(r'.categories) == if category in Names(r.categories) then Names(r.categories) else Names(r.categories) + [category]
    ensures forall c :: c != category ==> ListAt(r'.categories, c) == ListAt(r.categories, c)
    ensures forall n :: n in Names(r'.shortcuts) <==> n in Names(r.shortcuts) || n == name
    ensures forall n :: n != name ==> Get(r'.shortcuts, n) == Get(r.shortcuts, n)
    ensures name !in Names(r.shortcuts) ==> r'.shortcuts == r.shortcuts + [Named(name, Shortcut(key, description, category))]
  {
    assert name !in Names(r.shortcuts) ==>
             Put(r.shortcuts, name, Shortcut(key, description, category)) == r.shortcuts + [Named(name, Shortcut(key, description, category))] by {
      if name !in Names(r.shortcuts) {
        PutNew(r.shortcuts, name, Shortcut(key, description, category));
      }
    }
    var cats := Put(r.categories, category, ListAt(r.categories, category) + [name]);
    assert forall c :: c != category ==> ListAt(cats, c) == ListAt(r.categories, c) by {
      forall c | c != category ensures ListAt(cats, c) == ListAt(r.categories, c) {
        assert Get(cats, c) == Get(r.categories, c);
      }
    }
    PutIsDict(r.shortcuts, name, Shortcut(key, description, category));
    PutIsDict(r.categories, category, ListAt(r.categories, category) + [name]);
    Registry(Put(r.shortcuts, name, Shortcut(key, description, category)),
             Put(r.categories, category, ListAt(r.categories, category) + [name]))
  }

  /**
   * `remove_shortcut`: an unknown name changes nothing; otherwise the
   * entry goes, one occurrence of the name leaves its category's list, and
   * a list left empty takes its category with it.
   */
  function Remove(r: Registry, name: string): (r': Registry)
    ensures name !in Names(r.shortcuts) ==> r' == r
    ensures Names(r'.shortcuts) == RemoveFirst(Names(r.shortcuts), name)
  {
    if name !in Names(r.shortcuts) then r
    else
      var c := Get(r.shortcuts, name).value.category;
      DelIsDict(r.shortcuts, name);
      var sc := Del(r.shortcuts, name);
      if c !in Names(r.categories) then Registry(sc, r.categories)
      else
        var l := RemoveFirst(ListAt(r.categories, c), name);
        DelIsDict(r.categories, c);
        PutIsDict(r.categories, c, l);
        Registry(sc, if l == [] then Del(r.categories, c) else Put(r.categories, c, l))
  }

  /** Adding keeps every registered shortcut listed under its category. */
  lemma AddRegistered(r: Registry, name: string, key: string, description: string, category: string)
    requires Registered(r)
    ensures Registered(Add(r, name, key, description, category))
  {
    var r' := Add(r, name, key, description, category);
    forall n | n in Names(r'.shortcuts)
      ensures var c := Get(r'.shortcuts, n).value.category;
        c in Names(r'.categories) && n in Get(r'.categories, c).value
    {
      if n != name {
        var c := Get(r.shortcuts, n).value.category;
        assert Get(r'.shortcuts, n) == Get(r.shortcuts, n);
        assert ListAt(r.categories, c) == Get(r.categories, c).value;
        if c == category {
          assert n in ListAt(r'.categories, c);
        } else {
          assert Get(r'.categories, c) == Get(r.categories, c);
        }
      }
    }
  }

  /** Adding lists the new name and nothing unregistered. */
  lemma AddListed(r: Registry, name: string, key: string, description: string, category: string)
    requires Listed(r)
    ensures Listed(Add(r, name, key, description, category))
  {
    var r' := Add(r, name, key, description, category);
    forall c, n | c in Names(r'.categories) && n in ListAt(r'.categories, c)
      ensures n in Names(r'.shortcuts)
    {
      if n != name {
        if c != category {
          assert ListAt(r'.categories, c) == ListAt(r.categories, c);
        }
        assert n in ListAt(r.categories, c);
        assert c in Names(r.categories);
        assert n in Names(r.shortcuts);
      }
    }
  }

  /**
   * Removing keeps every remaining shortcut listed under its category, so
   * the removal from the list always finds the name.
   */
  lemma RemoveRegistered(r: Registry, name: string)
    requires Registered(r)
    ensures Registered(Remove(r, name))
    ensures name in Names(r.shortcuts) ==> name in ListAt(r.categories, Get(r.shortcuts, name).value.category)
  {
    if name in Names(r.shortcuts) {
      var r' := Remove(r, name);
      forall n | n in Names(r'.shortcuts)
        ensures var c := Get(r'.shortcuts, n).value.category;
          c in Names(r'.categories) && n in Get(r'.categories, c).value
      {
        RemoveRegisteredAt(r, name, n);
      }
    }
  }

  /** One shortcut left after a removal is still listed under its category. */
  lemma RemoveRegisteredAt(r: Registry, name: string, n: string)
    requires Registered(r) && name in Names(r.shortcuts)
    requires n in Names(Remove(r, name).shortcuts)
    ensures var r' := Remove(r, name); var c := Get(r'.shortcuts, n).value.category;
      c in Names(r'.categories) && n in Get(r'.categories, c).value
  {
    var c0 := Get(r.shortcuts, name).value.category;
    var r' := Remove(r, name);
    var l := RemoveFirst(ListAt(r.categories, c0), name);
    RemoveFirstMultiset(ListAt(r.categories, c0), name);
    DelIsDict(r.shortcuts, name);
    RemoveFirstDistinct(Names(r.shortcuts), name);
    assert n != name && n in Names(r.shortcuts);
    var c := Get(r.shortcuts, n).value.category;
    assert Get(r'.shortcuts, n) == Get(r.shortcuts, n);
    if c == c0 {
      assert n in multiset(l);
      assert n in l;
    } else {
      assert Get(r'.categories, c) == Get(r.categories, c);
      RemoveFirstDistinct(Names(r.categories), c0);
    }
  }

  /**
   * As written, re-adding a name and then removing it leaves the name in
   * its category's list although it is no longer registered.
   */
  /** Adding a name twice to an empty registry registers it once and lists it twice. */
  lemma ReAddState(x: string, key: string, description: string, category: string)
    ensures var r2 := Add(Add(Empty(), x, key, description, category), x, key, description, category);
      Names(r2.shortcuts) == [x] && ListAt(r2.categories, category) == [x, x] && Names(r2.categories) == [category]
      && Get(r2.shortcuts, x) == Some(Shortcut(key, description, category))
  {
    var r1 := Add(Empty(), x, key, description, category);
    assert Names(r1.shortcuts) == [x] && ListAt(r1.categories, category) == [x];
    var r2 := Add(r1, x, key, description, category);
    assert Names(r2.shortcuts) == [x] && ListAt(r2.categories, category) == [x, x];
  }

  /**
   * As written, re-adding a name and then removing it leaves the name in
   * its category's list although it is no longer registered.
   */
  lemma ReAddThenRemoveUnlisted(x: string, key: string, description: string, category: string)
    ensures var r := Remove(Add(Add(Empty(), x, key, description, category), x, key, description, category), x);
      ListAt(r.categories, category) == [x] && x !in Names(r.shortcuts) && !Listed(r)
  {
    var r2 := Add(Add(Empty(), x, key, description, category), x, key, description, category);
    ReAddState(x, key, description, category);
    RemoveListedTwice(r2, x, category);
    var r := Remove(r2, x);
    assert x in ListAt(r.categories, category);
  }

  /** Removing a name listed twice under its category leaves it listed once. */
  lemma RemoveListedTwice(r: Registry, x: string, category: string)
    requires Names(r.shortcuts) == [x] && Get(r.shortcuts, x).Some? && Get(r.shortcuts, x).value.category == category
    requires Names(r.categories) == [category] && ListAt(r.categories, category) == [x, x]
    ensures var r' := Remove(r, x);
      ListAt(r'.categories, category) == [x] && Names(r'.shortcuts) == [] && category in Names(r'.categories)
  {
    var r' := Remove(r, x);
    assert RemoveFirst([x, x], x) == [x];
    assert Get(r'.categories, category) == Some([x]);
  }

  /** Python `[y for y in l if y != x]`. */
  function Filter(l: seq<string>, x: string): (r: seq<string>)
    ensures forall y :: y in r <==> y in l && y != x
  {
    if l == [] then []
    else
      assert forall y :: y in l <==> y == l[0] || y in l[1..];
      (if l[0] == x then [] else [l[0]]) + Filter(l[1..], x)
  }

  /** Every category list without `x`, and the categories left empty dropped. */
  function Purge(cats: seq<Named<seq<string>>>, x: string): (r: seq<Named<seq<string>>>)
  {
    if cats == [] then []
    else
      var l := Filter(cats[0].item, x);
      (if l == [] then [] else [Named(cats[0].name, l)]) + Purge(cats[1..], x)
  }

  lemma {:induction false} PurgeNames(cats: seq<Named<seq<string>>>, x: string)
    ensures forall c :: c in Names(Purge(cats, x)) ==> c in Names(cats)
    ensures IsDict(cats) ==> IsDict(Purge(cats, x))
  {
    if cats != [] {
      PurgeNames(cats[1..], x);
      var l := Filter(cats[0].item, x);
      var h := if l == [] then [] else [Named(cats[0].name, l)];
      var t := Purge(cats[1..], x);
      NamesAppend(h, t);
      assert Names(cats) == [cats[0].name] + Names(cats[1..]);
      if IsDict(cats) {
        IsDictTail(cats);
        if l != [] {
          DistinctCons(cats[0].name, Names(t));
        }
      }
    }
  }

  lemma ListAtCons(e: Named<seq<string>>, t: seq<Named<seq<string>>>, c: string)
    ensures ListAt([e] + t, c) == if e.name == c then e.item else ListAt(t, c)
    ensures Names([e] + t) == [e.name] + Names(t)
  {
    GetCons(e, t, c);
    NamesAppend([e], t);
  }

  /** Each category keeps its list without `x`, and stays exactly when something is left. */
  lemma {:induction false} PurgeListAt(cats: seq<Named<seq<string>>>, x: string, c: string)
    requires IsDict(cats)
    ensures ListAt(Purge(cats, x), c) == Filter(ListAt(cats, c), x)
    ensures c in Names(Purge(cats, x)) <==> c in Names(cats) && Filter(ListAt(cats, c), x) != []
  {
    if cats != [] {
      var e := cats[0];
      var t := cats[1..];
      assert cats == [e] + t;
      IsDictTail(cats);
      PurgeListAt(t, x, c);
      var l := Filter(e.item, x);
      var pt := Purge(t, x);
      ListAtCons(e, t, c);
      if l == [] {
        assert Purge(cats, x) == pt;
        if e.name == c {
          assert ListAt(t, c) == [];
        }
      } else {
        assert Purge(cats, x) == [Named(e.name, l)] + pt;
        ListAtCons(Named(e.name, l), pt, c);
      }
    }
  }

  /**
   * `remove_shortcut` with every listing of the name removed: an unknown
   * name changes nothing.
   */
  function RemoveIntended(r: Registry, name: string): (r': Registry)
    ensures name !in Names(r.shortcuts) ==> r' == r
    ensures Names(r'.shortcuts) == RemoveFirst(Names(r.shortcuts), name)
  {
    if name !in Names(r.shortcuts) then r
    else
      DelIsDict(r.shortcuts, name);
      PurgeNames(r.categories, name);
      Registry(Del(r.shortcuts, name), Purge(r.categories, name))
  }

  /** The intended removal keeps both registries consistent, and the name is listed nowhere. */
  lemma RemoveIntendedConsistent(r: Registry, name: string)
    requires Registered(r) && Listed(r)
    ensures Registered(RemoveIntended(r, name)) && Listed(RemoveIntended(r, name))
    ensures forall c :: name !in ListAt(RemoveIntended(r, name).categories, c)
  {
    if name in Names(r.shortcuts) {
      var r' := RemoveIntended(r, name);
      RemoveFirstDistinct(Names(r.shortcuts), name);
      forall c ensures ListAt(r'.categories, c) == Filter(ListAt(r.categories, c), name)
        && (c in Names(r'.categories) <==> c in Names(r.categories) && Filter(ListAt(r.categories, c), name) != []) {
        PurgeListAt(r.categories, name, c);
      }
      forall n | n in Names(r'.shortcuts)
        ensures var c := Get(r'.shortcuts, n).value.category;
          c in Names(r'.categories) && n in Get(r'.categories, c).value
      {
        var c := Get(r.shortcuts, n).value.category;
        assert Get(r'.shortcuts, n) == Get(r.shortcuts, n);
        assert n in ListAt(r.categories, c);
      }
      forall c, n | c in Names(r'.categories) && n in ListAt(r'.categories, c)
        ensures n in Names(r'.shortcuts)
      {
        assert n in ListAt(r.categories, c);
      }
    }
  }

  /** The row the tree shows for a name; none when the name is not registered (a `KeyError`). */
  function RowOf(sc: seq<Named<Shortcut>>, n: string): (r: Option<Row>)
    ensures r.Some? <==> n in Names(sc)
    ensures r.Some? ==> (r.value.name == n && r.value.key == Get(sc, n).value.key
      && r.value.description == Get(sc, n).value.description)
  {
    match Get(sc, n)
    case Some(s) => Some(Row(n, s.key, s.description))
    case None => None
  }

  /** The rows under one category; none when one of its names is not registered. */
  function RowsOf(names: seq<string>, sc: seq<Named<Shortcut>>): (r: Option<seq<Row>>)
    ensures r.Some? <==> forall n :: n in names ==> n in Names(sc)
    ensures r.Some? ==> (|r.value| == |names|
      && forall i :: 0 <= i < |names| ==> Some(r.value[i]) == RowOf(sc, names[i]))
  {
    if names == [] then Some([])
    else
      var init, last := names[..|names| - 1], names[|names| - 1];
      assert names == init + [last];
      assert forall n :: n in names <==> n in init || n == last;
      match RowsOf(init, sc)
      case None => None
      case Some(rows) =>
        match RowOf(sc, last)
        case None => None
        case Some(row) =>
          assert forall i :: 0 <= i < |init| ==> (rows + [row])[i] == rows[i] && names[i] == init[i];
          Some(rows + [row])
  }

  /**
   * `_update_tree`: one group per category in order, each with the rows of
   * its names. A name that is not registered raises `KeyError`; the groups
   * added before it stay, and `ok` is false.
   */
  function TreeOf(cats: seq<Named<seq<string>>>, sc: seq<Named<Shortcut>>): (t: (seq<Group>, bool))
    ensures |t.0| <= |cats|
    ensures forall i :: 0 <= i < |t.0| ==>
      (t.0[i].category == cats[i].name && RowsOf(cats[i].item, sc) == Some(t.0[i].rows))
    ensures t.1 ==> |t.0| == |cats|
    ensures !t.1 ==> |t.0| < |cats| && RowsOf(cats[|t.0|].item, sc).None?
  {
    if cats == [] then ([], true)
    else
      var init, last := cats[..|cats| - 1], cats[|cats| - 1];
      assert forall i :: 0 <= i < |init| ==> init[i] == cats[i];
      var (g, ok) := TreeOf(init, sc);
      if !ok then (g, false)
      else
        match RowsOf(last.item, sc)
        case None => (g, false)
        case Some(rows) => (g + [Group(last.name, rows)], true)
  }

  /** The tree is complete exactly when every listed name is registered. */
  lemma TreeOkIff(cats: seq<Named<seq<string>>>, sc: seq<Named<Shortcut>>)
    ensures TreeOf(cats, sc).1 <==> ListedAt(cats, sc)
  {
    var (t, ok) := TreeOf(cats, sc);
    if ok {
      forall i, n | 0 <= i < |cats| && n in cats[i].item ensures n in Names(sc) {
        assert RowsOf(cats[i].item, sc).Some?;
      }
    } else {
      assert RowsOf(cats[|t|].item, sc).None?;
    }
  }

  /** One more category extends the tree by its group, unless an earlier one failed. */
  lemma TreeOfSnoc(cats: seq<Named<seq<string>>>, sc: seq<Named<Shortcut>>, i: nat)
    requires i < |cats|
    ensures var (g, ok) := TreeOf(cats[..i], sc); var rows := RowsOf(cats[i].item, sc);
      TreeOf(cats[..i + 1], sc) ==
        if ok && rows.Some? then (g + [Group(cats[i].name, rows.value)], true) else (g, false)
  {
    assert cats[..i + 1][..i] == cats[..i];
  }

  /** The loop over one category's names in `_update_tree`. */
  method BuildRows(names: seq<string>, sc: seq<Named<Shortcut>>) returns (rows: seq<Row>, ok: bool)
    ensures ok == RowsOf(names, sc).Some?
    ensures ok ==> rows == RowsOf(names, sc).value
  {
    rows, ok := [], true;
    var i := 0;
    while i < |names| && ok
      invariant 0 <= i <= |names|
      invariant ok == RowsOf(names[..i], sc).Some?
      invariant ok ==> rows == RowsOf(names[..i], sc).value
      invariant !ok ==> RowsOf(names, sc).None?
    {
      assert names[..i + 1][..i] == names[..i];
      var s := Get(sc, names[i]);
      if s.Some? {
        rows := rows + [Row(names[i], s.value.key, s.value.description)];
      } else {
        ok := false;
      }
      i := i + 1;
    }
    assert ok ==> names[..i] == names;
  }

  /** `_update_tree`: the loop over the categories. */
  method BuildTree(cats: seq<Named<seq<string>>>, sc: seq<Named<Shortcut>>) returns (tree: seq<Group>, ok: bool)
    ensures (tree, ok) == TreeOf(cats, sc)
  {
    tree, ok := [], true;
    var i := 0;
    while i < |cats|
      invariant 0 <= i <= |cats|
      invariant (tree, ok) == TreeOf(cats[..i], sc)
    {
      TreeOfSnoc(cats, sc, i);
      if ok {
        var rows, rowsOk := BuildRows(cats[i].item, sc);
        if rowsOk {
          tree := tree + [Group(cats[i].name, rows)];
        } else {
          ok := false;
        }
      }
      i := i + 1;
    }
    assert cats[..i] == cats;
  }

  /** The search test: the query occurs in the lowercased name, key or description. */
  predicate Matches(q: string, n: string, s: Shortcut) {
    Contains(Lower(n), q) || Contains(Lower(s.key), q) || Contains(Lower(s.description), q)
  }

  /** Reference: the matching names of category `c`, in registration order. */
  function MatchNames(sc: seq<Named<Shortcut>>, q: string, c: string): seq<string> {
    if sc == [] then []
    else
      var e := sc[|sc| - 1];
      MatchNames(sc[..|sc| - 1], q, c) + (if e.item.category == c && Matches(q, e.name, e.item) then [e.name] else [])
  }

  /**
   * The `filtered_categories` dictionary of `_perform_search`: each matching
   * shortcut appended under its category, a category added when its first
   * match is found.
   */
  function FilterGroups(sc: seq<Named<Shortcut>>, q: string): (f: seq<Named<seq<string>>>)
    ensures IsDict(f)
    ensures forall c {:trigger ListAt(f, c)} :: ListAt(f, c) == MatchNames(sc, q, c)
    ensures forall c :: c in Names(f) <==> MatchNames(sc, q, c) != []
  {
    if sc == [] then []
    else
      var init, e := sc[..|sc| - 1], sc[|sc| - 1];
      var f0 := FilterGroups(init, q);
      if Matches(q, e.name, e.item) then
        var c := e.item.category;
        var f := Put(f0, c, ListAt(f0, c) + [e.name]);
        PutIsDict(f0, c, ListAt(f0, c) + [e.name]);
        assert forall d :: ListAt(f, d) == if d == c then ListAt(f0, c) + [e.name] else ListAt(f0, d);
        f
      else
        f0
  }

  /** A name is listed under `c` by the search exactly when it is registered under `c` and matches. */
  lemma {:induction false} MatchNamesIff(sc: seq<Named<Shortcut>>, q: string, c: string, n: string)
    requires IsDict(sc)
    ensures n in MatchNames(sc, q, c) <==>
      n in Names(sc) && Get(sc, n).value.category == c && Matches(q, n, Get(sc, n).value)
  {
    if sc != [] {
      var k := |sc| - 1;
      var init, e := sc[..k], sc[k];
      DictInit(sc);
      GetPrefixStepAt(sc, k, n);
      assert sc[..k + 1] == sc;
      MatchNamesIff(init, q, c, n);
      var tail := if e.item.category == c && Matches(q, e.name, e.item) then [e.name] else [];
      assert MatchNames(sc, q, c) == MatchNames(init, q, c) + tail;
      if n == e.name {
        assert n !in MatchNames(init, q, c);
      } else {
        assert n in Names(sc) <==> n in Names(init);
      }
    }
  }

  /** Every name the search lists is registered, so the filtered tree never fails. */
  lemma FilterGroupsListed(sc: seq<Named<Shortcut>>, q: string)
    ensures ListedAt(FilterGroups(sc, q), sc)
    ensures TreeOf(FilterGroups(sc, q), sc).1
  {
    var f := FilterGroups(sc, q);
    forall i, n | 0 <= i < |f| && n in f[i].item ensures n in Names(sc) {
      GetAt(f, i);
      assert n in MatchNames(sc, q, f[i].name) by { assert ListAt(f, f[i].name) == f[i].item; }
      MatchNamesIn(sc, q, f[i].name, n);
    }
    TreeOkIff(f, sc);
  }

  lemma {:induction false} MatchNamesIn(sc: seq<Named<Shortcut>>, q: string, c: string, n: string)
    requires n in MatchNames(sc, q, c)
    ensures n in Names(sc)
  {
    var k := |sc| - 1;
    NamesAppend(sc[..k], [sc[k]]);
    assert sc[..k] + [sc[k]] == sc;
    if n in MatchNames(sc[..k], q, c) {
      MatchNamesIn(sc[..k], q, c, n);
    }
  }

  lemma FilterGroupsSnoc(sc: seq<Named<Shortcut>>, q: string, i: nat)
    requires i < |sc|
    ensures var f, e := FilterGroups(sc[..i], q), sc[i];
      FilterGroups(sc[..i + 1], q) ==
        if Matches(q, e.name, e.item) then Put(f, e.item.category, ListAt(f, e.item.category) + [e.name]) else f
  {
    assert sc[..i + 1][..i] == sc[..i];
  }

  /** The loop of `_perform_search` that builds `filtered_categories`. */
  method FilterShortcuts(sc: seq<Named<Shortcut>>, q: string) returns (f: seq<Named<seq<string>>>)
    ensures f == FilterGroups(sc, q)
  {
    f := [];
    var i := 0;
    while i < |sc|
      invariant 0 <= i <= |sc|
      invariant f == FilterGroups(sc[..i], q)
    {
      FilterGroupsSnoc(sc, q, i);
      var e := sc[i];
      if Matches(q, e.name, e.item) {
        var c := e.item.category;
        var l := if c in Names(f) then Get(f, c).value else [];
        assert l == ListAt(f, c);
        f := Put(f, c, l + [e.name]);
      }
      i := i + 1;
    }
    assert sc[..i] == sc;
  }

  /** The query `_perform_search` uses: the search text lowercased, then stripped. */
  function Query(text: string): string {
    Strip(Lower(text))
  }

  /** `_perform_search`: a blank query shows the full tree, any other the filtered one. */
  function SearchTree(r: Registry, text: string): (t: (seq<Group>, bool))
    ensures Query(text) != [] ==> t.1
  {
    var q := Query(text);
    if q == [] then TreeOf(r.categories, r.shortcuts)
    else
      FilterGroupsListed(r.shortcuts, q);
      (FilteredTree(r.shortcuts, q), true)
  }

  /** The tree `_perform_search` shows for a non-blank query. */
  function FilteredTree(sc: seq<Named<Shortcut>>, q: string): (t: seq<Group>) {
    TreeOf(FilterGroups(sc, q), sc).0
  }

  /** The names of a group's rows. */
  function RowNames(rows: seq<Row>): seq<string> {
    seq(|rows|, i requires 0 <= i < |rows| => rows[i].name)
  }

  /**
   * A search with a non-blank query shows, under each group, exactly the
   * matching shortcuts of its category in registration order.
   */
  lemma SearchRows(sc: seq<Named<Shortcut>>, q: string, i: nat)
    requires i < |FilteredTree(sc, q)|
    ensures var g := FilteredTree(sc, q)[i];
      RowNames(g.rows) == MatchNames(sc, q, g.category)
  {
    var f := FilterGroups(sc, q);
    var t := TreeOf(f, sc).0;
    GetAt(f, i);
    assert ListAt(f, f[i].name) == f[i].item;
    var rows := t[i].rows;
    assert RowsOf(f[i].item, sc) == Some(rows);
    assert forall j :: 0 <= j < |rows| ==> Some(rows[j]) == RowOf(sc, f[i].item[j]);
  }

  /** ... and shows a group for a category exactly when the category holds a match. */
  lemma SearchGroups(sc: seq<Named<Shortcut>>, q: string, c: string)
    ensures var t := FilteredTree(sc, q);
      MatchNames(sc, q, c) != [] <==> exists i :: 0 <= i < |t| && t[i].category == c
  {
    var f := FilterGroups(sc, q);
    FilterGroupsListed(sc, q);
    var t := FilteredTree(sc, q);
    assert |t| == |f|;
    assert c in Names(f) <==> MatchNames(sc, q, c) != [];
    if c in Names(f) {
      var i := IndexOf(Names(f), c);
      assert t[i].category == f[i].name == c;
    }
    if exists i :: 0 <= i < |t| && t[i].category == c {
      var i :| 0 <= i < |t| && t[i].category == c;
      assert f[i].name == c;
      assert Names(f)[i] == c;
    }
  }

  /** The quick-help test: the registered key equals the pressed key text, ignoring case. */
  predicate KeyMatches(key: string, keyText: string) {
    Lower(key) == Lower(keyText)
  }

  /** The shortcuts bound to a pressed key, in registration order. */
  function Matching(sc: seq<Named<Shortcut>>, keyText: string): (m: seq<Named<Shortcut>>)
    ensures forall e :: e in m <==> e in sc && KeyMatches(e.item.key, keyText)
  {
    if sc == [] then []
    else
      var init, e := sc[..|sc| - 1], sc[|sc| - 1];
      assert sc == init + [e];
      Matching(init, keyText) + (if KeyMatches(e.item.key, keyText) then [e] else [])
  }

  /** A name is reported for a key exactly when it is registered with a key equal to it up to case. */
  lemma MatchingIff(sc: seq<Named<Shortcut>>, keyText: string, n: string)
    requires IsDict(sc)
    ensures n in Names(Matching(sc, keyText)) <==>
      n in Names(sc) && KeyMatches(Get(sc, n).value.key, keyText)
  {
    var m := Matching(sc, keyText);
    if n in Names(m) {
      var i := IndexOf(Names(m), n);
      assert m[i] in sc;
      var j :| 0 <= j < |sc| && sc[j] == m[i];
      GetAt(sc, j);
      assert Names(sc)[j] == n;
    }
    if n in Names(sc) && KeyMatches(Get(sc, n).value.key, keyText) {
      var j := IndexOf(Names(sc), n);
      GetAt(sc, j);
      assert sc[j] in m;
      var i :| 0 <= i < |m| && m[i] == sc[j];
      assert Names(m)[i] == n;
    }
  }

  /** The loop of `keyPressEvent` that collects the matching shortcuts. */
  method FindMatching(sc: seq<Named<Shortcut>>, keyText: string) returns (m: seq<Named<Shortcut>>)
    ensures m == Matching(sc, keyText)
  {
    m := [];
    var i := 0;
    while i < |sc|
      invariant 0 <= i <= |sc|
      invariant m == Matching(sc[..i], keyText)
    {
      assert sc[..i + 1][..i] == sc[..i];
      if Lower(sc[i].item.key) == Lower(keyText) {
        m := m + [sc[i]];
      }
      i := i + 1;
    }
    assert sc[..i] == sc;
  }

  const NoShortcutText := "No shortcut assigned to this key combination."
  const FoundText := "Found shortcuts:"

  /** One line of the quick-help report. */
  function InfoLine(e: Named<Shortcut>): string {
    "• " + e.name + ": " + e.item.description + " (" + e.item.category + ")\n"
  }

  function InfoLines(m: seq<Named<Shortcut>>): string {
    if m == [] then [] else InfoLines(m[..|m| - 1]) + InfoLine(m[|m| - 1])
  }

  /** The quick-help report: the matches after a heading, or a fixed message when there is none. */
  function InfoText(m: seq<Named<Shortcut>>): (r: string)
    ensures m == [] ==> r == NoShortcutText
    ensures m != [] ==> |r| >= |FoundText| && r[..|FoundText|] == FoundText
  {
    if m == [] then NoShortcutText
    else
      var s := FoundText + "\n" + InfoLines(m);
      assert s[0] == 'F' && s[15] == ':';
      assert StripLeft(s) == s;
      var r := StripRight(s);
      assert !IsSpace(s[15]);
      assert r[..16] == s[..16];
      r
  }

  /** The `<20` string format of `s`: padded with spaces to `w` characters, never cut. */
  function PadRight(s: string, w: nat): (r: string)
    ensures |r| == if |s| < w then w else |s|
    ensures r[..|s|] == s
    ensures forall k :: |s| <= k < |r| ==> r[k] == ' '
  {
    if |s| < w then s + Repeat(' ', w - |s|) else s
  }

  /** One shortcut line of the export: the key in a 20-column field, then the description. */
  function ExportLine(row: Row): (l: string)
    ensures |l| == 4 + |PadRight(row.key, 20)| + |row.description|
    ensures l[..2] == "  " && l[2..2 + |row.key|] == row.key && l[|l| - 1] == '\n'
    ensures |row.key| <= 20 ==> (l[22] == ' ' && l[23..|l| - 1] == row.description)
  {
    var p := PadRight(row.key, 20);
    var l := "  " + p + " " + row.description + "\n";
    assert l[2..2 + |p|] == p;
    assert l[2 + |p| + 1..|l| - 1] == row.description;
    l
  }

  function RowLines(rows: seq<Row>): string {
    if rows == [] then [] else RowLines(rows[..|rows| - 1]) + ExportLine(rows[|rows| - 1])
  }

  /** One category of the export: its name and an underline as long as the name, its lines, a blank line. */
  function SectionText(c: string, lines: string): (r: string)
    ensures |r| == 2 * |c| + 4 + |lines|
    ensures r[..2 * |c| + 2] == c + ":\n" + Repeat('-', |c|)
  {
    var head := c + ":\n" + Repeat('-', |c|);
    var r := head + ("\n" + lines + "\n");
    assert r == c + ":\n" + Repeat('-', |c|) + "\n" + lines + "\n";
    assert r[..|head|] == head;
    r
  }

  function GroupText(g: Group): string {
    SectionText(g.category, RowLines(g.rows))
  }

  function GroupsText(t: seq<Group>): string {
    if t == [] then [] else GroupsText(t[..|t| - 1]) + GroupText(t[|t| - 1])
  }

  lemma GroupsTextSnoc(t: seq<Group>, g: Group)
    ensures GroupsText(t + [g]) == GroupsText(t) + GroupText(g)
  {
    assert (t + [g])[..|t|] == t;
  }

  /** The export's title and its rule of 50 `=`. */
  function Header(): string {
    "Keyboard Shortcuts\n" + Repeat('=', 50) + "\n\n"
  }

  /**
   * `export_shortcuts`: the title, then each category as the tree shows it.
   * A listed name that is not registered raises `KeyError`, so the export
   * succeeds exactly when every listed name is registered.
   */
  function ExportText(r: Registry): (out: Option<string>)
    ensures out.Some? <==> Listed(r)
    ensures out.Some? ==> |out.value| >= |Header()| && out.value[..|Header()|] == Header()
  {
    TreeOkIff(r.categories, r.shortcuts);
    ListedAtIff(r);
    var (t, ok) := TreeOf(r.categories, r.shortcuts);
    if ok then
      assert (Header() + GroupsText(t))[..|Header()|] == Header();
      Some(Header() + GroupsText(t))
    else None
  }

  /** The inner loop of `export_shortcuts`: the lines of one category. */
  method ExportLines(names: seq<string>, sc: seq<Named<Shortcut>>) returns (lines: string, ok: bool)
    ensures ok == RowsOf(names, sc).Some?
    ensures ok ==> lines == RowLines(RowsOf(names, sc).value)
  {
    lines, ok := [], true;
    var i := 0;
    while i < |names| && ok
      invariant 0 <= i <= |names|
      invariant ok == RowsOf(names[..i], sc).Some?
      invariant ok ==> lines == RowLines(RowsOf(names[..i], sc).value)
      invariant !ok ==> RowsOf(names, sc).None?
    {
      assert names[..i + 1][..i] == names[..i];
      var s := Get(sc, names[i]);
      if s.Some? {
        var row := Row(names[i], s.value.key, s.value.description);
        ghost var rows := RowsOf(names[..i], sc).value;
        assert (rows + [row])[..|rows|] == rows;
        lines := lines + ExportLine(row);
      } else {
        ok := false;
      }
      i := i + 1;
    }
    assert ok ==> names[..i] == names;
  }

  /** One pass of the outer loop of `export_shortcuts`: the section of category `i`. */
  method ExportSection(cats: seq<Named<seq<string>>>, sc: seq<Named<Shortcut>>, i: nat,
                       text: string, ghost tree: seq<Group>, ok: bool)
    returns (text': string, ghost tree': seq<Group>, ok': bool)
    requires i < |cats| && (tree, ok) == TreeOf(cats[..i], sc)
    requires ok ==> text == Header() + GroupsText(tree)
    ensures (tree', ok') == TreeOf(cats[..i + 1], sc)
    ensures ok' ==> text' == Header() + GroupsText(tree')
  {
    TreeOfSnoc(cats, sc, i);
    text', tree', ok' := text, tree, false;
    if ok {
      var c := cats[i].name;
      var lines, linesOk := ExportLines(cats[i].item, sc);
      if linesOk {
        var g := Group(c, RowsOf(cats[i].item, sc).value);
        var section := SectionText(c, lines);
        assert GroupText(g) == section;
        GroupsTextSnoc(tree, g);
        ConcatAssoc(Header(), GroupsText(tree), section);
        text', tree', ok' := text + section, tree + [g], true;
      }
    }
  }

  /** `export_shortcuts` as the loops that build the text. */
  method ExportShortcuts(r: Registry) returns (out: Option<string>)
    ensures out == ExportText(r)
  {
    var cats := r.categories;
    var text := Header();
    var ok := true;
    ghost var tree: seq<Group> := [];
    var i := 0;
    while i < |cats|
      invariant 0 <= i <= |cats|
      invariant (tree, ok) == TreeOf(cats[..i], r.shortcuts)
      invariant ok ==> text == Header() + GroupsText(tree)
    {
      text, tree, ok := ExportSection(cats, r.shortcuts, i, text, tree, ok);
      i := i + 1;
    }
    assert cats[..i] == cats;
    out := if ok then Some(text) else None;
  }

  /** The shortcuts `_load_default_shortcuts` registers, in order. */
  const DefaultList: seq<Named<Shortcut>> := [
    Named("new_file", Shortcut("Ctrl+N", "Create new file", "File")),
    Named("open_file", Shortcut("Ctrl+O", "Open file", "File")),
    Named("save_file", Shortcut("Ctrl+S", "Save file", "File")),
    Named("save_as", Shortcut("Ctrl+Shift+S", "Save file as", "File")),
    Named("close_file", Shortcut("Ctrl+W", "Close file", "File")),
    Named("quit", Shortcut("Ctrl+Q", "Quit application", "File")),
    Named("undo", Shortcut("Ctrl+Z", "Undo last action", "Edit")),
    Named("redo", Shortcut("Ctrl+Y", "Redo last action", "Edit")),
    Named("cut", Shortcut("Ctrl+X", "Cut selection", "Edit")),
    Named("copy", Shortcut("Ctrl+C", "Copy selection", "Edit")),
    Named("paste", Shortcut("Ctrl+V", "Paste from clipboard", "Edit")),
    Named("select_all", Shortcut("Ctrl+A", "Select all", "Edit")),
    Named("find", Shortcut("Ctrl+F", "Find text", "Edit")),
    Named("replace", Shortcut("Ctrl+H", "Find and replace", "Edit")),
    Named("zoom_in", Shortcut("Ctrl++", "Zoom in", "View")),
    Named("zoom_out", Shortcut("Ctrl+-", "Zoom out", "View")),
    Named("zoom_reset", Shortcut("Ctrl+0", "Reset zoom", "View")),
    Named("fullscreen", Shortcut("F11", "Toggle fullscreen", "View")),
    Named("go_back", Shortcut("Alt+Left", "Go back", "Navigation")),
    Named("go_forward", Shortcut("Alt+Right", "Go forward", "Navigation")),
    Named("refresh", Shortcut("F5", "Refresh/Reload", "Navigation")),
    Named("help", Shortcut("F1", "Show help", "Help")),
    Named("shortcuts", Shortcut("Ctrl+/", "Show shortcuts", "Help"))
  ]

  /** No name is listed twice among the defaults. */
  lemma DefaultsDistinct()
    ensures forall i, j :: 0 <= i < j < |DefaultList| ==> DefaultList[i].name != DefaultList[j].name
  {
    DefaultNamesMatch();
    DefaultNamesDistinct();
  }

  /** The default names, in registration order. */
  const DefaultNames := ["new_file", "open_file", "save_file", "save_as", "close_file", "quit", "undo", "redo", "cut", "copy", "paste",
    "select_all", "find", "replace", "zoom_in", "zoom_out", "zoom_reset", "fullscreen", "go_back", "go_forward", "refresh", "help", "shortcuts"]

  lemma DefaultNamesMatch()
    ensures |DefaultNames| == |DefaultList|
    ensures forall i :: 0 <= i < |DefaultList| ==> DefaultList[i].name == DefaultNames[i]
  {
  }

  lemma DefaultNamesDistinct()
    ensures forall i, j :: 0 <= i < j < |DefaultNames| ==> DefaultNames[i] != DefaultNames[j]
  {
  }

  /** The first `i` entries of `list` are registered, and they are all there is when the registry started empty. */
  ghost predicate AddedPrefix(sc: seq<Named<Shortcut>>, list: seq<Named<Shortcut>>, i: nat, fromEmpty: bool)
    requires i <= |list|
  {
    (forall j :: 0 <= j < i ==> Get(sc, list[j].name) == Some(list[j].item))
    && (fromEmpty ==> sc == list[..i])
  }

  /** Registering entry `i` of a list with distinct names extends the registered prefix by that entry. */
  lemma AddedPrefixStep(before: seq<Named<Shortcut>>, after: seq<Named<Shortcut>>, list: seq<Named<Shortcut>>, i: nat, fromEmpty: bool)
    requires i < |list|
    requires forall i, j :: 0 <= i < j < |list| ==> list[i].name != list[j].name
    requires AddedPrefix(before, list, i, fromEmpty)
    requires Get(after, list[i].name) == Some(list[i].item)
    requires forall n :: n != list[i].name ==> Get(after, n) == Get(before, n)
    requires list[i].name !in Names(before) ==> after == before + [list[i]]
    ensures AddedPrefix(after, list, i + 1, fromEmpty)
  {
    forall j | 0 <= j < i
      ensures Get(after, list[j].name) == Some(list[j].item)
    {
      assert list[j].name != list[i].name;
    }
    if fromEmpty {
      FreshInPrefix(list, i);
      assert list[..i + 1] == list[..i] + [list[i]];
    }
  }

  /** In a list with distinct names, no entry's name occurs before it. */
  lemma FreshInPrefix(list: seq<Named<Shortcut>>, i: nat)
    requires i < |list|
    requires forall i, j :: 0 <= i < j < |list| ==> list[i].name != list[j].name
    ensures list[i].name !in Names(list[..i])
  {
    var prefix := list[..i];
    assert forall j :: 0 <= j < i ==> Names(prefix)[j] == list[j].name;
  }

  /** The item data of a tree row is its name; a category row holds none. */
  function Activated(data: Option<string>): (emitted: Option<string>)
    ensures emitted.Some? <==> data.Some? && data.value != ""
    ensures emitted.Some? ==> emitted == data
  {
    if data.Some? && data.value != "" then data else None
  }

  /**
   * The `ShortcutHelper` widget: the registry, the tree it shows (and
   * whether building it raised `KeyError`), the search text, and the
   * quick-help mode with its overlay and labels.
   */
  class ShortcutHelperWidget {
    var reg: Registry
    var tree: seq<Group>
    var treeError: bool
    var searchText: string
    var quickHelp: bool
    var overlayShown: bool
    var treeShown: bool
    var keyLabel: string
    var infoLabel: string

    /** The registry stays consistent, and the overlay replaces the tree exactly in quick-help mode. */
    ghost predicate Valid()
      reads this
    {
      Registered(reg) && overlayShown == quickHelp && treeShown == !quickHelp
    }

    /**
     * The widget with the default shortcuts loaded and shown: every default
     * is registered in turn, then the tree is built, and it builds without
     * error.
     */
    constructor()
      ensures Valid() && Listed(reg)
      ensures forall i :: 0 <= i < |DefaultList| ==> Get(reg.shortcuts, DefaultList[i].name) == Some(DefaultList[i].item)
      ensures (tree, !treeError) == TreeOf(reg.categories, reg.shortcuts) && !treeError
      ensures searchText == "" && !quickHelp
      ensures keyLabel == "Press a key combination..." && infoLabel == ""
    {
      reg := Empty();
      searchText := "";
      quickHelp, overlayShown, treeShown := false, false, true;
      keyLabel, infoLabel := "Press a key combination...", "";
      new;
      LoadDefaultShortcuts();
    }

    /**
     * `_load_default_shortcuts`: each default is registered in turn, then
     * the tree is built, without error since every listed name is
     * registered.
     */
    method LoadDefaultShortcuts()
      requires Valid() && Listed(reg)
      modifies this`reg, this`tree, this`treeError
      ensures Valid() && Listed(reg)
      ensures forall i :: 0 <= i < |DefaultList| ==> DefaultList[i].name in Names(reg.shortcuts)
      ensures forall i :: 0 <= i < |DefaultList| ==> Get(reg.shortcuts, DefaultList[i].name) == Some(DefaultList[i].item)
      ensures (tree, !treeError) == TreeOf(reg.categories, reg.shortcuts) && !treeError
    {
      DefaultsDistinct();
      AddAll(DefaultList);
      RefreshTree();
      TreeOkIff(reg.categories, reg.shortcuts);
      ListedAtIff(reg);
    }

    /**
     * The `add_shortcut` calls of `_load_default_shortcuts`, one per default
     * in order: when the names are distinct, each name ends up with its own
     * entry, and an empty registry ends up holding exactly the list.
     */
    method AddAll(list: seq<Named<Shortcut>>)
      requires Valid() && Listed(reg)
      requires forall i, j :: 0 <= i < j < |list| ==> list[i].name != list[j].name
      modifies this`reg
      ensures Valid() && Listed(reg)
      ensures forall i :: 0 <= i < |list| ==> list[i].name in Names(reg.shortcuts)
      ensures forall i :: 0 <= i < |list| ==> Get(reg.shortcuts, list[i].name) == Some(list[i].item)
      ensures old(reg.shortcuts) == [] ==> reg.shortcuts == list
    {
      ghost var fromEmpty := reg.shortcuts == [];
      var i := 0;
      while i < |list|
        invariant 0 <= i <= |list|
        invariant Valid() && Listed(reg)
        invariant AddedPrefix(reg.shortcuts, list, i, fromEmpty)
      {
        AddNext(list, i, fromEmpty);
        i := i + 1;
      }
      assert list[..i] == list;
    }

    /** One step of `AddAll`: the next entry is registered. */
    method AddNext(list: seq<Named<Shortcut>>, i: nat, ghost fromEmpty: bool)
      requires i < |list| && Valid() && Listed(reg)
      requires forall i, j :: 0 <= i < j < |list| ==> list[i].name != list[j].name
      requires AddedPrefix(reg.shortcuts, list, i, fromEmpty)
      modifies this`reg
      ensures Valid() && Listed(reg)
      ensures AddedPrefix(reg.shortcuts, list, i + 1, fromEmpty)
    {
      ghost var before := reg.shortcuts;
      AddDefault(list[i]);
      AddedPrefixStep(before, reg.shortcuts, list, i, fromEmpty);
    }

    /** `add_shortcut`: only the registry changes; the tree is not rebuilt. */
    method AddShortcut(name: string, key: string, description: string, category: string)
      requires Valid()
      modifies this`reg
      ensures Valid()
      ensures reg == Add(old(reg), name, key, description, category)
    {
      AddRegistered(reg, name, key, description, category);
      reg := Add(reg, name, key, description, category);
    }

    /** One `add_shortcut` call of `_load_default_shortcuts`. */
    method AddDefault(e: Named<Shortcut>)
      requires Valid() && Listed(reg)
      modifies this`reg
      ensures Valid() && Listed(reg)
      ensures forall n :: n in Names(old(reg.shortcuts)) ==> n in Names(reg.shortcuts)
      ensures e.name in Names(reg.shortcuts)
      ensures Get(reg.shortcuts, e.name) == Some(e.item)
      ensures forall n :: n != e.name ==> Get(reg.shortcuts, n) == Get(old(reg.shortcuts), n)
      ensures e.name !in Names(old(reg.shortcuts)) ==> reg.shortcuts == old(reg.shortcuts) + [e]
    {
      AddListed(reg, e.name, e.item.key, e.item.description, e.item.category);
      AddShortcut(e.name, e.item.key, e.item.description, e.item.category);
    }

    /** `remove_shortcut`, as written: only the registry changes. */
    method RemoveShortcut(name: string)
      requires Valid()
      modifies this`reg
      ensures Valid()
      ensures reg == Remove(old(reg), name)
    {
      RemoveRegistered(reg, name);
      reg := Remove(reg, name);
    }

    /** `remove_shortcut` dropping every listing of the name: the registry stays listed. */
    method RemoveShortcutIntended(name: string)
      requires Valid() && Listed(reg)
      modifies this`reg
      ensures Valid() && Listed(reg)
      ensures reg == RemoveIntended(old(reg), name)
    {
      RemoveIntendedConsistent(reg, name);
      reg := RemoveIntended(reg, name);
    }

    /** `_update_tree`: the tree of every category; `treeError` when a listed name is not registered. */
    method RefreshTree()
      modifies this`tree, this`treeError
      ensures (tree, !treeError) == TreeOf(reg.categories, reg.shortcuts)
    {
      var ok;
      tree, ok := BuildTree(reg.categories, reg.shortcuts);
      treeError := !ok;
    }

    /** `_on_search_changed`: the new text is searched when the debounce timer fires. */
    method SetSearchText(text: string)
      modifies this`searchText
      ensures searchText == text
    {
      searchText := text;
    }

    /** `_perform_search`: the full tree for a blank query, else only the matching shortcuts. */
    method PerformSearch()
      modifies this`tree, this`treeError
      ensures (tree, !treeError) == SearchTree(reg, searchText)
      ensures Query(searchText) != [] ==> !treeError
    {
      var q := Strip(Lower(searchText));
      if q == [] {
        RefreshTree();
      } else {
        var f := FilterShortcuts(reg.shortcuts, q);
        FilterGroupsListed(reg.shortcuts, q);
        var ok;
        tree, ok := BuildTree(f, reg.shortcuts);
        treeError := !ok;
      }
    }

    /** `_clear_search`: the search text is emptied and the full tree shown. */
    method ClearSearch()
      modifies this`searchText, this`tree, this`treeError
      ensures searchText == ""
      ensures (tree, !treeError) == TreeOf(reg.categories, reg.shortcuts)
    {
      searchText := "";
      RefreshTree();
    }

    /** `_toggle_quick_help`: the overlay shows and the tree hides exactly when enabled. */
    method ToggleQuickHelp(enabled: bool)
      modifies this`quickHelp, this`overlayShown, this`treeShown
      ensures quickHelp == enabled && overlayShown == enabled && treeShown == !enabled
    {
      quickHelp, overlayShown, treeShown := enabled, enabled, !enabled;
    }

    /**
     * `keyPressEvent`: in quick-help mode the pressed key and the shortcuts
     * bound to it are shown, and Escape leaves the mode; otherwise the key is
     * passed on (`handled` is false) and nothing changes.
     */
    method KeyPress(keyText: string, isEscape: bool) returns (handled: bool)
      requires Valid()
      modifies this`keyLabel, this`infoLabel, this`quickHelp, this`overlayShown, this`treeShown
      ensures Valid()
      ensures handled == old(quickHelp)
      ensures handled ==> (keyLabel == "Key: " + keyText
        && infoLabel == InfoText(Matching(reg.shortcuts, keyText))
        && quickHelp == !isEscape)
      ensures !handled ==> keyLabel == old(keyLabel) && infoLabel == old(infoLabel) && !quickHelp
    {
      handled := quickHelp;
      if quickHelp {
        keyLabel := "Key: " + keyText;
        var m := FindMatching(reg.shortcuts, keyText);
        infoLabel := InfoText(m);
        if isEscape {
          ToggleQuickHelp(false);
        }
      }
    }

    /** `get_shortcut`: the registered shortcut, or none for an unknown name. */
    function GetShortcut(name: string): (s: Option<Shortcut>)
      reads this
      ensures s.None? <==> name !in Names(reg.shortcuts)
    {
      Get(reg.shortcuts, name)
    }
  }

  /** The capture caption and labels. */
  const IdleText := "Press keys to capture shortcut..."
  const CapturingText := "Press key combination..."

  /** `ShortcutCapture`: a label and a button that toggles capturing one key combination. */
  class ShortcutCapture {
    var capturing: bool
    var labelText: string
    var caption: string

    /** The label and the button caption follow the capturing flag. */
    ghost predicate Valid()
      reads this
    {
      labelText == (if capturing then CapturingText else IdleText)
        && caption == (if capturing then "Cancel" else "Capture")
    }

    constructor()
      ensures Valid() && !capturing
    {
      capturing, labelText, caption := false, IdleText, "Capture";
    }

    /** `start_capture`: the button now cancels. */
    method StartCapture()
      modifies this
      ensures Valid() && capturing
    {
      capturing, labelText, caption := true, CapturingText, "Cancel";
    }

    /** `stop_capture`: the button captures again. */
    method StopCapture()
      modifies this
      ensures Valid() && !capturing
    {
      capturing, labelText, caption := false, IdleText, "Capture";
    }

    /** A click on the button, which is connected to whichever of the two applies. */
    method Click()
      requires Valid()
      modifies this
      ensures Valid() && capturing == !old(capturing)
    {
      if capturing {
        StopCapture();
      } else {
        StartCapture();
      }
    }

    /**
     * `keyPressEvent`, as written: while capturing, the key text is emitted
     * and capturing stops; the "Captured: ..." label it sets is at once
     * overwritten by `stop_capture`, so the label is back to its idle text.
     */
    method KeyPress(keyText: string) returns (captured: Option<string>)
      requires Valid()
      modifies this
      ensures Valid() && !capturing
      ensures captured == if old(capturing) then Some(keyText) else None
      ensures labelText == IdleText
    {
      captured := None;
      if capturing {
        labelText := "Captured: " + keyText;
        captured := Some(keyText);
        StopCapture();
      }
    }

    /** `keyPressEvent` as evidently intended: the captured key stays on the label. */
    method KeyPressIntended(keyText: string) returns (captured: Option<string>)
      requires Valid()
      modifies this
      ensures !capturing && caption == "Capture"
      ensures captured == if old(capturing) then Some(keyText) else None
      ensures old(capturing) ==> labelText == "Captured: " + keyText
      ensures !old(capturing) ==> labelText == IdleText
    {
      captured := None;
      if capturing {
        captured := Some(keyText);
        StopCapture();
        labelText := "Captured: " + keyText;
      }
    }
  }

  /** The fixed list the compact helper shows. */
  const CompactText := "Ctrl+N - New\nCtrl+O - Open  \nCtrl+S - Save\nCtrl+Z - Undo\nCtrl+C - Copy\nCtrl+V - Paste\nF1 - Help"

  /** `CompactShortcutHelper`: a key-to-description dictionary beside a fixed label. */
  class CompactShortcutHelper {
    var shortcuts: Dict<string>
    var text: string

    constructor()
      ensures shortcuts == [] && text == CompactText
    {
      shortcuts, text := [], CompactText;
    }

    /**
     * `add_shortcut`: the key maps to the description; `_update_display`
     * does nothing, so the shown text never changes.
     */
    method AddShortcut(key: string, description: string)
      modifies this`shortcuts
      ensures shortcuts == Put(old(shortcuts), key, description)
      ensures Get(shortcuts, key) == Some(description)
      ensures forall k :: k != key ==> Get(shortcuts, k) == Get(old(shortcuts), k)
    {
      PutIsDict(shortcuts, key, description);
      shortcuts := Put(shortcuts, key, description);
    }
  }
}
