/**
 * The tree view: items with a text, an optional check box, a hidden flag
 * and an expanded flag, arranged under top-level items. A search hides
 * every item that neither matches nor leads to a match and expands the
 * items that lead to one; the checkable view pushes a changed check state
 * down to the descendants and recomputes each ancestor from its children;
 * the checked items are collected in pre-order. The file tree view maps a
 * file extension to a file type.
 *
 * Items are values addressed by their path: the position of the top-level
 * item, then the position of each child on the way down.
 */
module TreeView {
  import opened Common

  datatype Check = Unchecked | PartiallyChecked | Checked

  datatype Node = Node(text: string, userCheckable: bool, check: Check, hidden: bool, expanded: bool, children: seq<Node>)

  type Path = seq<nat>

  /** The item at path `p` below `n`, `n` itself for the empty path. */
  function At(n: Node, p: Path): Option<Node>
    decreases p
  {
    if p == [] then Some(n)
    else if p[0] < |n.children| then At(n.children[p[0]], p[1..])
    else None
  }

  /** The item at path `p` among the top-level items `f`. */
  function Get(f: seq<Node>, p: Path): Option<Node> {
    if p == [] || p[0] >= |f| then None else At(f[p[0]], p[1..])
  }

  // ---------------------------------------------------------------------
  // Search filter

  /** `search_text in item.text(0).lower()`, for an already lowered search text. */
  predicate TextMatches(n: Node, s: string) {
    Contains(Lower(n.text), s)
  }

  /** Some item at or below `n` other than `n` itself matches. */
  ghost predicate DescendantMatches(n: Node, s: string) {
    exists p :: p != [] && At(n, p).Some? && TextMatches(At(n, p).value, s)
  }

  /** `filter_recursive`: every child is filtered, then the item's own hidden and expanded flags are set. */
  function Filter(n: Node, s: string): (r: Node)
    decreases n, 1
  {
    var kids := FilterAll(n.children, s);
    var childMatch := AnyShown(kids);
    var show := TextMatches(n, s) || childMatch || s == "";
    n.(hidden := !show, expanded := if childMatch && s != "" then true else n.expanded, children := kids)
  }

  function FilterAll(f: seq<Node>, s: string): (r: seq<Node>)
    decreases f, 0
    ensures |r| == |f| && forall i :: 0 <= i < |f| ==> r[i] == Filter(f[i], s)
  {
    if f == [] then [] else [Filter(f[0], s)] + FilterAll(f[1..], s)
  }

  /** Some item of `f` is shown. */
  predicate AnyShown(f: seq<Node>) {
    exists i :: 0 <= i < |f| && !f[i].hidden
  }

  /** The flags and texts of an item, without its children. */
  function Label(n: Node): (string, bool, Check, bool, bool) {
    (n.text, n.userCheckable, n.check, n.hidden, n.expanded)
  }

  // ---------------------------------------------------------------------
  // Paths

  lemma {:induction false} AtAppend(n: Node, p: Path, q: Path)
    requires At(n, p).Some?
    ensures At(n, p + q) == At(At(n, p).value, q)
    decreases p
  {
    if p == [] {
      assert p + q == q;
    } else {
      assert (p + q)[1..] == p[1..] + q;
      AtAppend(n.children[p[0]], p[1..], q);
    }
  }

  lemma GetAppend(f: seq<Node>, p: Path, q: Path)
    requires Get(f, p).Some?
    ensures Get(f, p + q) == At(Get(f, p).value, q)
  {
    assert (p + q)[1..] == p[1..] + q;
    AtAppend(f[p[0]], p[1..], q);
  }

  /** An item's ancestors are items too. */
  lemma GetPrefix(f: seq<Node>, p: Path, k: nat)
    requires Get(f, p).Some? && 1 <= k <= |p|
    ensures Get(f, p[..k]).Some?
  {
    var q := p[k..];
    assert p == p[..k] + q;
    if Get(f, p[..k]).None? {
      NoneAppend(f, p[..k], q);
    }
  }

  lemma NoneAppend(f: seq<Node>, p: Path, q: Path)
    requires p != [] && Get(f, p).None?
    ensures Get(f, p + q).None?
  {
    assert (p + q)[1..] == p[1..] + q;
    if p[0] < |f| {
      AtNoneAppend(f[p[0]], p[1..], q);
    }
  }

  lemma {:induction false} AtNoneAppend(n: Node, p: Path, q: Path)
    requires At(n, p).None?
    ensures At(n, p + q).None?
    decreases p
  {
    assert p != [];
    assert (p + q)[1..] == p[1..] + q;
    if p[0] < |n.children| {
      AtNoneAppend(n.children[p[0]], p[1..], q);
    }
  }

  // ---------------------------------------------------------------------
  // Replacing one item

  function ReplaceIn(n: Node, p: Path, m: Node): Node
    decreases p
  {
    if p == [] then m
    else if p[0] < |n.children| then n.(children := n.children[p[0] := ReplaceIn(n.children[p[0]], p[1..], m)])
    else n
  }

  /** The items with the one at path `p`, when there is one, replaced by `m`. */
  function Replace(f: seq<Node>, p: Path, m: Node): seq<Node> {
    if p == [] || p[0] >= |f| then f else f[p[0] := ReplaceIn(f[p[0]], p[1..], m)]
  }

  lemma {:induction false} ReplaceInHere(n: Node, p: Path, m: Node)
    requires At(n, p).Some?
    ensures At(ReplaceIn(n, p, m), p) == Some(m)
    decreases p
  {
    if p != [] {
      ReplaceInHere(n.children[p[0]], p[1..], m);
    }
  }

  /** Replacing an item by one with the same children leaves everything below it alone. */
  lemma {:induction false} ReplaceInBelow(n: Node, p: Path, m: Node, q: Path)
    requires At(n, p).Some? && m.children == At(n, p).value.children && |q| > |p| && q[..|p|] == p
    ensures At(ReplaceIn(n, p, m), q) == At(n, q)
    decreases p
  {
    if p != [] {
      ReplaceInBelow(n.children[p[0]], p[1..], m, q[1..]);
    }
  }

  /** Replacing an item leaves the label of every item not at or below it, and where items are. */
  lemma {:induction false} ReplaceInLabel(n: Node, p: Path, m: Node, q: Path)
    requires !(|p| <= |q| && q[..|p|] == p)
    ensures At(ReplaceIn(n, p, m), q).Some? == At(n, q).Some?
    ensures At(n, q).Some? ==> Label(At(ReplaceIn(n, p, m), q).value) == Label(At(n, q).value)
    decreases q
  {
    if q != [] && p[0] < |n.children| && q[0] == p[0] {
      ReplaceInLabel(n.children[p[0]], p[1..], m, q[1..]);
    }
  }

  lemma ReplaceHere(f: seq<Node>, p: Path, m: Node)
    requires Get(f, p).Some?
    ensures Get(Replace(f, p, m), p) == Some(m)
  {
    ReplaceInHere(f[p[0]], p[1..], m);
  }

  lemma ReplaceBelow(f: seq<Node>, p: Path, m: Node, q: Path)
    requires Get(f, p).Some? && m.children == Get(f, p).value.children && |q| > |p| && q[..|p|] == p
    ensures Get(Replace(f, p, m), q) == Get(f, q)
  {
    ReplaceInBelow(f[p[0]], p[1..], m, q[1..]);
  }

  lemma ReplaceLabel(f: seq<Node>, p: Path, m: Node, q: Path)
    requires p != [] && !(|p| <= |q| && q[..|p|] == p)
    ensures Get(Replace(f, p, m), q).Some? == Get(f, q).Some?
    ensures Get(f, q).Some? ==> Label(Get(Replace(f, p, m), q).value) == Label(Get(f, q).value)
  {
    if q != [] && p[0] < |f| && q[0] == p[0] {
      ReplaceInLabel(f[p[0]], p[1..], m, q[1..]);
    }
  }

  // ---------------------------------------------------------------------
  // What the search filter does

  /** A descendant matches exactly when some child matches or has a matching descendant. */
  lemma DescendantMatchesIff(n: Node, s: string)
    ensures DescendantMatches(n, s) <==>
              exists i :: 0 <= i < |n.children| && (TextMatches(n.children[i], s) || DescendantMatches(n.children[i], s))
  {
    if DescendantMatches(n, s) {
      var p :| p != [] && At(n, p).Some? && TextMatches(At(n, p).value, s);
      var c := n.children[p[0]];
      if p[1..] != [] {
        assert At(c, p[1..]).Some? && TextMatches(At(c, p[1..]).value, s);
      }
    }
    forall i | 0 <= i < |n.children| && DescendantMatches(n.children[i], s)
      ensures DescendantMatches(n, s)
    {
      var q :| q != [] && At(n.children[i], q).Some? && TextMatches(At(n.children[i], q).value, s);
      assert ([i] + q)[1..] == q;
      assert At(n, [i] + q) == At(n.children[i], q);
    }
    forall i | 0 <= i < |n.children| && TextMatches(n.children[i], s)
      ensures DescendantMatches(n, s)
    {
      assert At(n, [i]) == Some(n.children[i]);
    }
  }

  /**
   * An item is shown after a search exactly when the search is empty, its
   * own text contains the search, or some item below it does; it is
   * expanded when it was, or when the search is not empty and some item
   * below it matches. Its texts and check state stay.
   */
  lemma {:induction false} FilterShows(n: Node, s: string)
    ensures var r := Filter(n, s);
            (!r.hidden <==> s == "" || TextMatches(n, s) || DescendantMatches(n, s))
            && (r.expanded <==> n.expanded || (s != "" && DescendantMatches(n, s)))
            && r.text == n.text && r.check == n.check && r.userCheckable == n.userCheckable
            && |r.children| == |n.children|
    decreases n
  {
    var kids := FilterAll(n.children, s);
    forall i | 0 <= i < |n.children|
      ensures !kids[i].hidden <==> s == "" || TextMatches(n.children[i], s) || DescendantMatches(n.children[i], s)
    {
      FilterShows(n.children[i], s);
    }
    DescendantMatchesIff(n, s);
    if s == "" && n.children != [] {
      assert !kids[0].hidden;
    }
  }

  /** The item at a path after a search is the filtered item that was there. */
  lemma {:induction false} FilterAt(n: Node, s: string, p: Path)
    ensures At(Filter(n, s), p) == if At(n, p).Some? then Some(Filter(At(n, p).value, s)) else None
    decreases p
  {
    if p != [] && p[0] < |n.children| {
      FilterAt(n.children[p[0]], s, p[1..]);
    }
  }

  /**
   * `_filter_items` over the whole tree: every item stays where it was,
   * keeps its texts and check state, and is shown exactly when the
   * lowered search is empty, is in its lowered text, or is in the lowered
   * text of an item below it.
   */
  lemma FilterTreeSpec(f: seq<Node>, search: string, p: Path)
    ensures var s := Lower(search);
            Get(FilterAll(f, s), p).Some? == Get(f, p).Some?
            && (Get(f, p).Some? ==>
                  var n := Get(f, p).value;
                  var r := Get(FilterAll(f, s), p).value;
                  (!r.hidden <==> s == "" || TextMatches(n, s) || DescendantMatches(n, s))
                  && (r.expanded <==> n.expanded || (s != "" && DescendantMatches(n, s)))
                  && r.text == n.text && r.check == n.check)
  {
    var s := Lower(search);
    if p != [] && p[0] < |f| {
      FilterAt(f[p[0]], s, p[1..]);
      if Get(f, p).Some? {
        FilterShows(Get(f, p).value, s);
      }
    }
  }

  // ---------------------------------------------------------------------
  // Check states

  /** `_update_children_check_state`: every descendant takes the item's state. */
  function PushCheck(n: Node, st: Check): (r: Node)
    decreases n, 1
  {
    n.(children := PushAll(n.children, st))
  }

  function PushAll(f: seq<Node>, st: Check): (r: seq<Node>)
    decreases f, 0
    ensures |r| == |f| && forall i :: 0 <= i < |f| ==> r[i] == PushCheck(f[i], st).(check := st)
  {
    if f == [] then [] else [PushCheck(f[0], st).(check := st)] + PushAll(f[1..], st)
  }

  /** After a push every item below carries the state and keeps its text; the item itself keeps its own state. */
  lemma {:induction false} PushCheckAt(n: Node, st: Check, p: Path)
    ensures At(PushCheck(n, st), p).Some? == At(n, p).Some?
    ensures At(n, p).Some? ==>
              var r := At(PushCheck(n, st), p).value;
              r.text == At(n, p).value.text && r.check == (if p == [] then n.check else st)
    decreases p
  {
    if p != [] && p[0] < |n.children| {
      PushCheckAt(n.children[p[0]], st, p[1..]);
    }
  }

  /** The number of checked items among `f`. */
  function CheckedCount(f: seq<Node>): (k: nat)
    ensures k <= |f|
  {
    if f == [] then 0 else (if f[0].check == Checked then 1 else 0) + CheckedCount(f[1..])
  }

  /** `_update_parent_check_state` for one parent: none checked, all checked, or some. */
  function ParentState(f: seq<Node>): Check {
    var k := CheckedCount(f);
    if k == 0 then Unchecked else if k == |f| then Checked else PartiallyChecked
  }

  lemma {:induction false} CheckedCountSpec(f: seq<Node>)
    ensures CheckedCount(f) == 0 <==> forall i :: 0 <= i < |f| ==> f[i].check != Checked
    ensures CheckedCount(f) == |f| <==> forall i :: 0 <= i < |f| ==> f[i].check == Checked
  {
    if f != [] {
      CheckedCountSpec(f[1..]);
      assert forall i :: 1 <= i < |f| ==> f[i] == f[1..][i - 1];
    }
  }

  /**
   * A parent is unchecked when no child is checked, checked when it has
   * children and all are checked, and partially checked otherwise; a
   * partially checked child does not count as checked.
   */
  lemma ParentStateSpec(f: seq<Node>)
    ensures ParentState(f) == Unchecked <==> forall i :: 0 <= i < |f| ==> f[i].check != Checked
    ensures ParentState(f) == Checked <==> f != [] && forall i :: 0 <= i < |f| ==> f[i].check == Checked
    ensures ParentState(f) == PartiallyChecked <==>
              (exists i :: 0 <= i < |f| && f[i].check == Checked) && (exists i :: 0 <= i < |f| && f[i].check != Checked)
  {
    CheckedCountSpec(f);
  }

  /** From the item's parent up to its top-level item, each ancestor's state is recomputed from its children. */
  function UpdateParents(f: seq<Node>, p: Path): seq<Node>
    decreases |p|
  {
    if |p| <= 1 then f
    else
      var a := p[..|p| - 1];
      match Get(f, a)
      case None => f
      case Some(n) => UpdateParents(Replace(f, a, n.(check := ParentState(n.children))), a)
  }

  /** Recomputing the ancestors leaves the item and everything below it alone. */
  lemma {:induction false} UpdateKeepsBelow(f: seq<Node>, p: Path, q: Path)
    requires |p| <= |q| && q[..|p|] == p
    ensures Get(UpdateParents(f, p), q) == Get(f, q)
    decreases |p|
  {
    if |p| > 1 {
      var a := p[..|p| - 1];
      if Get(f, a).Some? {
        var n := Get(f, a).value;
        var f' := Replace(f, a, n.(check := ParentState(n.children)));
        ReplaceBelow(f, a, n.(check := ParentState(n.children)), q);
        UpdateKeepsBelow(f', a, q);
      }
    }
  }

  /** After recomputing, every ancestor's state agrees with its children's. */
  lemma {:induction false} UpdateConsistent(f: seq<Node>, p: Path, k: nat)
    requires Get(f, p).Some? && 1 <= k < |p|
    ensures var b := Get(UpdateParents(f, p), p[..k]);
            b.Some? && b.value.check == ParentState(b.value.children)
    decreases |p|
  {
    var a := p[..|p| - 1];
    GetPrefix(f, p, |p| - 1);
    var n := Get(f, a).value;
    var m := n.(check := ParentState(n.children));
    var f' := Replace(f, a, m);
    ReplaceHere(f, a, m);
    ReplaceBelow(f, a, m, p);
    if k == |p| - 1 {
      UpdateKeepsBelow(f', a, a);
    } else {
      assert a[..k] == p[..k];
      UpdateConsistent(f', a, k);
    }
  }

  /** Recomputing the ancestors changes nothing but their labels, and no item moves. */
  lemma {:induction false} UpdateOthers(f: seq<Node>, p: Path, q: Path)
    requires !(|q| < |p| && p[..|q|] == q) || q == []
    ensures Get(UpdateParents(f, p), q).Some? == Get(f, q).Some?
    ensures Get(f, q).Some? ==> Label(Get(UpdateParents(f, p), q).value) == Label(Get(f, q).value)
    decreases |p|
  {
    if |p| > 1 {
      var a := p[..|p| - 1];
      if Get(f, a).Some? {
        var n := Get(f, a).value;
        var m := n.(check := ParentState(n.children));
        var f' := Replace(f, a, m);
        if |a| < |q| && q[..|a|] == a {
          ReplaceBelow(f, a, m, q);
        } else {
          ReplaceLabel(f, a, m, q);
        }
        UpdateOthers(f', a, q);
      }
    }
  }

  /** `_on_item_changed` after the item at `p` took state `st`: push down, then recompute up. */
  function ApplyCheck(f: seq<Node>, p: Path, st: Check): seq<Node>
    requires Get(f, p).Some?
  {
    var n := Get(f, p).value;
    UpdateParents(Replace(f, p, PushCheck(n.(check := st), st)), p)
  }

  /** The changed item keeps its new state, every item below it takes that state and keeps its text. */
  lemma ApplyCheckBelow(f: seq<Node>, p: Path, st: Check, q: Path)
    requires Get(f, p).Some?
    ensures var n := Get(f, p).value;
            var r := Get(ApplyCheck(f, p, st), p + q);
            r.Some? == At(n, q).Some?
            && (r.Some? ==> r.value.check == st && r.value.text == At(n, q).value.text)
  {
    var n := Get(f, p).value;
    var m := PushCheck(n.(check := st), st);
    var f1 := Replace(f, p, m);
    ReplaceHere(f, p, m);
    UpdateKeepsBelow(f1, p, p + q);
    GetAppend(f1, p, q);
    PushCheckAt(n.(check := st), st, q);
  }

  /** After a change every ancestor of the item agrees with its children. */
  lemma ApplyCheckAncestors(f: seq<Node>, p: Path, st: Check, k: nat)
    requires Get(f, p).Some? && 1 <= k < |p|
    ensures var b := Get(ApplyCheck(f, p, st), p[..k]);
            b.Some? && b.value.check == ParentState(b.value.children)
  {
    var n := Get(f, p).value;
    var m := PushCheck(n.(check := st), st);
    ReplaceHere(f, p, m);
    UpdateConsistent(Replace(f, p, m), p, k);
  }

  /** An item that is neither the changed one, below it, nor one of its ancestors keeps its label. */
  lemma ApplyCheckOthers(f: seq<Node>, p: Path, st: Check, q: Path)
    requires Get(f, p).Some? && !(|q| <= |p| && p[..|q|] == q) && !(|p| <= |q| && q[..|p|] == p)
    ensures Get(ApplyCheck(f, p, st), q).Some? == Get(f, q).Some?
    ensures Get(f, q).Some? ==> Label(Get(ApplyCheck(f, p, st), q).value) == Label(Get(f, q).value)
  {
    var n := Get(f, p).value;
    var m := PushCheck(n.(check := st), st);
    ReplaceLabel(f, p, m, q);
    UpdateOthers(Replace(f, p, m), p, q);
  }

  // ---------------------------------------------------------------------
  // The check-state handler as Qt runs it

  /**
   * `_on_item_changed` as Qt runs it. Every `setCheckState` that changes an
   * item fires `itemChanged` again, so the handler re-enters for that item
   * before the caller's loop goes on; a `setCheckState` to the state the
   * item already has fires nothing. `fuel` bounds the nesting, and the
   * result is `None` when it runs out or a path is missing.
   */
  function Handle(f: seq<Node>, p: Path, fuel: nat): Option<seq<Node>>
    decreases fuel
  {
    if fuel == 0 then None
    else match Get(f, p)
      case None => None
      case Some(n) =>
        match PushChildren(f, p, n.check, 0, fuel - 1)
        case None => None
        case Some(f1) => RecomputeParents(f1, p, fuel - 1)
  }

  /**
   * `_update_children_check_state` from child `i` on: each child is set to
   * the state `st` read when the call started, then the call recurses for
   * that child with the child's state as it is by then.
   */
  function PushChildren(f: seq<Node>, p: Path, st: Check, i: nat, fuel: nat): Option<seq<Node>>
    decreases fuel
  {
    if fuel == 0 then None
    else match Get(f, p)
      case None => None
      case Some(n) =>
        if i >= |n.children| then Some(f)
        else match SetCheckState(f, p + [i], st, fuel - 1)
          case None => None
          case Some(f1) =>
            match Get(f1, p + [i])
            case None => None
            case Some(c) =>
              match PushChildren(f1, p + [i], c.check, 0, fuel - 1)
              case None => None
              case Some(f2) => PushChildren(f2, p, st, i + 1, fuel - 1)
  }

  /** `setCheckState`: nothing for the same state; otherwise the item changes and the handler runs for it. */
  function SetCheckState(f: seq<Node>, q: Path, st: Check, fuel: nat): Option<seq<Node>>
    decreases fuel
  {
    if fuel == 0 then None
    else match Get(f, q)
      case None => None
      case Some(n) =>
        if n.check == st then Some(f) else Handle(Replace(f, q, n.(check := st)), q, fuel - 1)
  }

  /** `_update_parent_check_state`: the parent is set from its children's states, then the same for its parent. */
  function RecomputeParents(f: seq<Node>, p: Path, fuel: nat): Option<seq<Node>>
    decreases fuel
  {
    if fuel == 0 then None
    else if |p| <= 1 then Some(f)
    else
      var a := p[..|p| - 1];
      match Get(f, a)
      case None => None
      case Some(n) =>
        match SetCheckState(f, a, ParentState(n.children), fuel - 1)
        case None => None
        case Some(f1) => RecomputeParents(f1, a, fuel - 1)
  }

  /** A checkable leaf with state `c`. */
  function Leaf(text: string, c: Check): Node {
    Node(text, true, c, false, false, [])
  }

  /** A checkable top-level item with state `c` over two leaves. */
  function Pair(c: Check, a: Check, b: Check): seq<Node> {
    [Node("folder", true, c, false, false, [Leaf("a", a), Leaf("b", b)])]
  }

  /** Reading and replacing the items of a two-leaf tree. */
  lemma PairShape(c: Check, a: Check, b: Check, c2: Check)
    ensures Get(Pair(c, a, b), [0]) == Some(Pair(c, a, b)[0])
    ensures Pair(c, a, b)[0].children == [Leaf("a", a), Leaf("b", b)]
    ensures Get(Pair(c, a, b), [0, 0]) == Some(Leaf("a", a))
    ensures Get(Pair(c, a, b), [0, 1]) == Some(Leaf("b", b))
    ensures Replace(Pair(c, a, b), [0], Pair(c, a, b)[0].(check := c2)) == Pair(c2, a, b)
    ensures Replace(Pair(c, a, b), [0, 0], Leaf("a", a).(check := c2)) == Pair(c, c2, b)
    ensures Replace(Pair(c, a, b), [0, 1], Leaf("b", b).(check := c2)) == Pair(c, a, c2)
  {
    assert [0, 0][1..] == [0] && [0, 1][1..] == [1] && [0][1..] == [];
    assert [0][1..] == [] && [1][1..] == [];
    var n := Pair(c, a, b)[0];
    assert ReplaceIn(n, [0], Leaf("a", a).(check := c2)) == n.(children := [Leaf("a", c2), Leaf("b", b)]);
    assert ReplaceIn(n, [1], Leaf("b", b).(check := c2)) == n.(children := [Leaf("a", a), Leaf("b", c2)]);
  }

  /** A leaf has no children to push to. */
  lemma LeafPush(c: Check, a: Check, b: Check, j: nat, st: Check, k: nat)
    requires j <= 1 && k >= 1
    ensures PushChildren(Pair(c, a, b), [0, j], st, 0, k) == Some(Pair(c, a, b))
  {
    PairShape(c, a, b, c);
  }

  /** A top-level item has no parent to recompute. */
  lemma TopLevelUp(f: seq<Node>, k: nat)
    requires k >= 1
    ensures RecomputeParents(f, [0], k) == Some(f)
  {
  }

  /** Setting the state an item already has does nothing. */
  lemma SameState(f: seq<Node>, q: Path, st: Check, k: nat)
    requires k >= 1 && Get(f, q).Some? && Get(f, q).value.check == st
    ensures SetCheckState(f, q, st, k) == Some(f)
  {
  }

  /** Past the second child the push is over. */
  lemma PushDone(c: Check, a: Check, b: Check, st: Check, k: nat)
    requires k >= 1
    ensures PushChildren(Pair(c, a, b), [0], st, 2, k) == Some(Pair(c, a, b))
  {
    PairShape(c, a, b, c);
  }

  /** In a tree whose parent agrees with its leaves, the handler run for a leaf changes nothing. */
  lemma LeafSettles(c: Check, a: Check, b: Check, j: nat, k: nat)
    requires j <= 1 && k >= 3 && c == ParentState([Leaf("a", a), Leaf("b", b)])
    ensures Handle(Pair(c, a, b), [0, j], k) == Some(Pair(c, a, b))
  {
    PairShape(c, a, b, c);
    LeafPush(c, a, b, j, c, k - 1);
    assert [0, j][..1] == [0];
    SameState(Pair(c, a, b), [0], c, k - 2);
    TopLevelUp(Pair(c, a, b), k - 2);
  }

  /** Pushing a state to the second leaf when it already has it changes nothing. */
  lemma PushSecondSame(c: Check, a: Check, b: Check, k: nat)
    requires k >= 3
    ensures PushChildren(Pair(c, a, b), [0], b, 1, k) == Some(Pair(c, a, b))
  {
    PairShape(c, a, b, c);
    assert [0] + [1] == [0, 1];
    SameState(Pair(c, a, b), [0, 1], b, k - 1);
    LeafPush(c, a, b, 1, b, k - 1);
    PushDone(c, a, b, b, k - 1);
  }

  /** The unchecked parent, re-entered over a partially checked and an unchecked leaf, unchecks both. */
  lemma ParentPushesUnchecked(k: nat)
    requires k >= 7
    ensures Handle(Pair(Unchecked, PartiallyChecked, Unchecked), [0], k)
            == Some(Pair(Unchecked, Unchecked, Unchecked))
  {
    var f := Pair(Unchecked, PartiallyChecked, Unchecked);
    var g := Pair(Unchecked, Unchecked, Unchecked);
    PairShape(Unchecked, PartiallyChecked, Unchecked, Unchecked);
    PairShape(Unchecked, Unchecked, Unchecked, Unchecked);
    assert [0] + [0] == [0, 0];
    LeafSettles(Unchecked, Unchecked, Unchecked, 0, k - 3);
    assert SetCheckState(f, [0, 0], Unchecked, k - 2) == Some(g);
    LeafPush(Unchecked, Unchecked, Unchecked, 0, Unchecked, k - 2);
    PushSecondSame(Unchecked, Unchecked, Unchecked, k - 2);
    assert PushChildren(f, [0], Unchecked, 0, k - 1) == Some(g);
    TopLevelUp(g, k - 1);
  }

  /** The handler for the first leaf, now partially checked under a partially checked parent, ends with everything unchecked. */
  lemma FirstLeafPartial(k: nat)
    requires k >= 10
    ensures Handle(Pair(PartiallyChecked, PartiallyChecked, Unchecked), [0, 0], k)
            == Some(Pair(Unchecked, Unchecked, Unchecked))
  {
    var f := Pair(PartiallyChecked, PartiallyChecked, Unchecked);
    var g := Pair(Unchecked, Unchecked, Unchecked);
    PairShape(PartiallyChecked, PartiallyChecked, Unchecked, Unchecked);
    LeafPush(PartiallyChecked, PartiallyChecked, Unchecked, 0, PartiallyChecked, k - 1);
    assert [0, 0][..1] == [0];
    ParentPushesUnchecked(k - 3);
    assert SetCheckState(f, [0], Unchecked, k - 2) == Some(g);
    TopLevelUp(g, k - 2);
  }

  /** From the second child on, pushing partially checked over two unchecked leaves leaves the second partially checked. */
  lemma SecondLeafPartial(k: nat)
    requires k >= 6
    ensures PushChildren(Pair(Unchecked, Unchecked, Unchecked), [0], PartiallyChecked, 1, k)
            == Some(Pair(Unchecked, Unchecked, PartiallyChecked))
  {
    var f := Pair(Unchecked, Unchecked, Unchecked);
    var g := Pair(Unchecked, Unchecked, PartiallyChecked);
    PairShape(Unchecked, Unchecked, Unchecked, PartiallyChecked);
    PairShape(Unchecked, Unchecked, PartiallyChecked, Unchecked);
    assert [0] + [1] == [0, 1];
    LeafSettles(Unchecked, Unchecked, PartiallyChecked, 1, k - 2);
    assert SetCheckState(f, [0, 1], PartiallyChecked, k - 1) == Some(g);
    LeafPush(Unchecked, Unchecked, PartiallyChecked, 1, PartiallyChecked, k - 1);
    PushDone(Unchecked, Unchecked, PartiallyChecked, PartiallyChecked, k - 1);
  }

  /** The parent, turned partially checked over a checked and an unchecked leaf, ends unchecked over an unchecked and a partially checked one. */
  lemma ParentPushesPartial(k: nat)
    requires k >= 14
    ensures Handle(Pair(PartiallyChecked, Checked, Unchecked), [0], k)
            == Some(Pair(Unchecked, Unchecked, PartiallyChecked))
  {
    var f := Pair(PartiallyChecked, Checked, Unchecked);
    var g := Pair(Unchecked, Unchecked, Unchecked);
    var h := Pair(Unchecked, Unchecked, PartiallyChecked);
    PairShape(PartiallyChecked, Checked, Unchecked, PartiallyChecked);
    PairShape(Unchecked, Unchecked, Unchecked, Unchecked);
    assert [0] + [0] == [0, 0];
    FirstLeafPartial(k - 3);
    assert SetCheckState(f, [0, 0], PartiallyChecked, k - 2) == Some(g);
    LeafPush(Unchecked, Unchecked, Unchecked, 0, Unchecked, k - 2);
    SecondLeafPartial(k - 2);
    assert PushChildren(f, [0], PartiallyChecked, 0, k - 1) == Some(h);
    TopLevelUp(h, k - 1);
  }

  /**
   * Checking the first of two unchecked leaves, with fuel enough for the
   * whole cascade: the parent turns partially checked, which the
   * re-entered handler pushes down to both leaves; the first leaf then makes
   * the parent unchecked, which is pushed down again. The leaf the user
   * checked ends unchecked and its sibling partially checked.
   */
  lemma CheckingLeafUnchecksIt(k: nat)
    requires k >= 20
    ensures SetCheckState(Pair(Unchecked, Unchecked, Unchecked), [0, 0], Checked, k)
            == Some(Pair(Unchecked, Unchecked, PartiallyChecked))
  {
    var f := Pair(Unchecked, Checked, Unchecked);
    var h := Pair(Unchecked, Unchecked, PartiallyChecked);
    PairShape(Unchecked, Unchecked, Unchecked, Checked);
    PairShape(Unchecked, Checked, Unchecked, PartiallyChecked);
    LeafPush(Unchecked, Checked, Unchecked, 0, Checked, k - 2);
    assert [0, 0][..1] == [0];
    ParentPushesPartial(k - 4);
    assert SetCheckState(f, [0], PartiallyChecked, k - 3) == Some(h);
    TopLevelUp(h, k - 3);
    assert Handle(f, [0, 0], k - 1) == Some(h);
  }

  /** The intended handler on the same change: the leaf checked, its sibling unchanged, the parent partially checked. */
  lemma CheckingLeafIntended()
    ensures ApplyCheck(Pair(Unchecked, Unchecked, Unchecked), [0, 0], Checked)
            == Pair(PartiallyChecked, Checked, Unchecked)
  {
    PairShape(Unchecked, Unchecked, Unchecked, Checked);
    PairShape(Unchecked, Checked, Unchecked, PartiallyChecked);
    assert [0, 0][..1] == [0];
  }

  // ---------------------------------------------------------------------
  // Collecting the checked items

  /** `collect_checked` from item `n` at path `at`: the item first, then each child's subtree in order. */
  function CheckedIn(n: Node, at: Path): seq<Path>
    decreases n, 1
  {
    (if n.check == Checked then [at] else []) + CheckedInAll(n.children, at, 0)
  }

  /** The checked items below the children `f` of the item at `at`, the first child being number `from`. */
  function CheckedInAll(f: seq<Node>, at: Path, from: nat): seq<Path>
    decreases f, 0
  {
    if f == [] then [] else CheckedIn(f[0], at + [from]) + CheckedInAll(f[1..], at, from + 1)
  }

  /** A path is collected from `n` exactly when it leads from `at` to a checked item of `n`'s subtree. */
  lemma {:induction false} CheckedInSpec(n: Node, at: Path, q: Path)
    ensures q in CheckedIn(n, at) <==>
              |at| <= |q| && q[..|at|] == at && At(n, q[|at|..]).Some? && At(n, q[|at|..]).value.check == Checked
    decreases n, 1
  {
    CheckedInAllSpec(n.children, at, 0, q);
    if |at| < |q| && q[..|at|] == at {
      assert q[|at|..][1..] == q[|at| + 1..];
    }
    if q == at {
      assert q[|at|..] == [];
    }
  }

  lemma {:induction false} CheckedInAllSpec(f: seq<Node>, at: Path, from: nat, q: Path)
    ensures q in CheckedInAll(f, at, from) <==>
              |at| < |q| && q[..|at|] == at && from <= q[|at|] < from + |f|
              && At(f[q[|at|] - from], q[|at| + 1..]).Some? && At(f[q[|at|] - from], q[|at| + 1..]).value.check == Checked
    decreases f, 0
  {
    if f != [] {
      CheckedInSpec(f[0], at + [from], q);
      CheckedInAllSpec(f[1..], at, from + 1, q);
      if |at| < |q| {
        assert q[..|at| + 1] == at + [from] <==> q[..|at|] == at && q[|at|] == from;
      }
    }
  }

  /** The checked items of the whole tree, in the order `get_checked_items` visits them. */
  function CheckedItems(f: seq<Node>): seq<Path> {
    CheckedInAll(f, [], 0)
  }

  /** Exactly the paths of the checked items are collected. */
  lemma CheckedItemsSpec(f: seq<Node>, q: Path)
    ensures q in CheckedItems(f) <==> Get(f, q).Some? && Get(f, q).value.check == Checked
  {
    CheckedInAllSpec(f, [], 0, q);
    assert q[0..] == q;
  }

  // ---------------------------------------------------------------------
  // Adding, removing and expanding items

  /** A new item: not hidden, collapsed, unchecked, with a check box when the view is checkable. */
  function NewItem(text: string, checkable: bool): Node {
    Node(text, checkable, Unchecked, false, false, [])
  }

  /** The items with `m` appended to the top level, or to the children of the item at `parent`. */
  function AddChild(f: seq<Node>, parent: Option<Path>, m: Node): seq<Node>
    requires parent.Some? ==> Get(f, parent.value).Some?
  {
    match parent
    case None => f + [m]
    case Some(p) => var n := Get(f, p).value; Replace(f, p, n.(children := n.children + [m]))
  }

  /** The path the appended item gets. */
  function ChildPath(f: seq<Node>, parent: Option<Path>): Path
    requires parent.Some? ==> Get(f, parent.value).Some?
  {
    match parent
    case None => [|f|]
    case Some(p) => p + [|Get(f, p).value.children|]
  }

  /** The appended item is found at its path, and every item that was there still is, with the same label. */
  lemma AddChildSpec(f: seq<Node>, parent: Option<Path>, m: Node, q: Path)
    requires parent.Some? ==> Get(f, parent.value).Some?
    ensures Get(AddChild(f, parent, m), ChildPath(f, parent)) == Some(m)
    ensures Get(f, q).Some? ==> Get(AddChild(f, parent, m), q).Some?
                                && Label(Get(AddChild(f, parent, m), q).value) == Label(Get(f, q).value)
  {
    match parent
    case None =>
    case Some(p) =>
      var n := Get(f, p).value;
      var n' := n.(children := n.children + [m]);
      var f' := Replace(f, p, n');
      ReplaceHere(f, p, n');
      GetAppend(f', p, [|n.children|]);
      if Get(f, q).Some? {
        if |p| < |q| && q[..|p|] == p {
          var r := q[|p|..];
          assert q == p + r;
          GetAppend(f', p, r);
          GetAppend(f, p, r);
          assert r[0] < |n.children|;
          assert n'.children[r[0]] == n.children[r[0]];
        } else if q == p {
        } else {
          ReplaceLabel(f, p, n', q);
        }
      }
  }

  /** The items without the one at `p`. */
  function RemoveAt(f: seq<Node>, p: Path): seq<Node>
    requires Get(f, p).Some?
  {
    if |p| == 1 then DeleteAt(f, p[0])
    else
      var a := p[..|p| - 1];
      GetPrefix(f, p, |p| - 1);
      var n := Get(f, a).value;
      GetAppend(f, a, [p[|p| - 1]]);
      assert a + [p[|p| - 1]] == p;
      Replace(f, a, n.(children := DeleteAt(n.children, p[|p| - 1])))
  }

  /** A removed top-level item leaves the top level; any other leaves its parent's children, the parent keeping its label. */
  lemma RemoveAtSpec(f: seq<Node>, p: Path)
    requires Get(f, p).Some?
    ensures |p| == 1 ==> RemoveAt(f, p) == DeleteAt(f, p[0])
    ensures |p| > 1 ==>
              var a := p[..|p| - 1];
              Get(f, a).Some? && p[|p| - 1] < |Get(f, a).value.children| && Get(RemoveAt(f, p), a).Some?
              && Get(RemoveAt(f, p), a).value.children == DeleteAt(Get(f, a).value.children, p[|p| - 1])
              && Label(Get(RemoveAt(f, p), a).value) == Label(Get(f, a).value)
  {
    if |p| > 1 {
      var a := p[..|p| - 1];
      GetPrefix(f, p, |p| - 1);
      var n := Get(f, a).value;
      GetAppend(f, a, [p[|p| - 1]]);
      assert a + [p[|p| - 1]] == p;
      ReplaceHere(f, a, n.(children := DeleteAt(n.children, p[|p| - 1])));
    }
  }

  /** `_expand_all` / `_collapse_all`: the item and everything below it take the flag. */
  function ExpandAllIn(n: Node, flag: bool): Node
    decreases n, 1
  {
    n.(expanded := flag, children := ExpandAllOf(n.children, flag))
  }

  function ExpandAllOf(f: seq<Node>, flag: bool): (r: seq<Node>)
    decreases f, 0
    ensures |r| == |f| && forall i :: 0 <= i < |f| ==> r[i] == ExpandAllIn(f[i], flag)
  {
    if f == [] then [] else [ExpandAllIn(f[0], flag)] + ExpandAllOf(f[1..], flag)
  }

  /** Every item of the subtree carries the flag and keeps its text, hidden flag and check state. */
  lemma {:induction false} ExpandAllAt(n: Node, flag: bool, p: Path)
    ensures At(ExpandAllIn(n, flag), p).Some? == At(n, p).Some?
    ensures At(n, p).Some? ==>
              var r := At(ExpandAllIn(n, flag), p).value;
              var o := At(n, p).value;
              r.expanded == flag && r.text == o.text && r.hidden == o.hidden && r.check == o.check
    decreases p
  {
    if p != [] && p[0] < |n.children| {
      ExpandAllAt(n.children[p[0]], flag, p[1..]);
    }
  }

  /** The context menu of an item: a folder (an item with children) offers new items, a file renaming. */
  function ContextMenu(n: Node): (actions: seq<string>)
    ensures |actions| >= 3 && actions[..2] == ["Expand All", "Collapse All"] && actions[|actions| - 1] == "Delete"
    ensures ("Add Folder" in actions) == (n.children != []) && ("Rename" in actions) == (n.children == [])
  {
    ["Expand All", "Collapse All"]
    + (if n.children != [] then ["Add Folder", "Add File"] else ["Rename"])
    + ["Delete"]
  }

  function NewFolderName(count: nat): string {
    "New Folder " + NatToStr(count + 1)
  }

  function NewFileName(count: nat): string {
    "New File " + NatToStr(count + 1) + ".txt"
  }

  // ---------------------------------------------------------------------
  // File types

  const FileTypes: map<string, string> := map[
    ".py" := "python", ".js" := "javascript", ".html" := "html", ".css" := "css",
    ".txt" := "text", ".md" := "markdown", ".json" := "json", ".xml" := "xml",
    ".png" := "image", ".jpg" := "image", ".jpeg" := "image", ".gif" := "image",
    ".pdf" := "pdf", ".doc" := "document", ".docx" := "document"]

  /** `_get_file_type`: the type of a known extension, "default" for any other. */
  function FileType(extension: string): (t: string)
    ensures t == "default" <==> extension !in FileTypes
    ensures extension in FileTypes ==> t == FileTypes[extension]
  {
    if extension in FileTypes then FileTypes[extension] else "default"
  }

  // ---------------------------------------------------------------------
  // The widget

  /**
   * `TreeViewWidget`, and `CheckableTreeView` when `propagates` holds:
   * the top-level items, whether new items get a check box, and the
   * search box's text.
   */
  class TreeViewWidget {
    var roots: seq<Node>
    var checkable: bool
    var search: string
    const propagates: bool

    /** `TreeViewWidget()`, or `CheckableTreeView()`, which turns check boxes on and handles check changes. */
    constructor (checkableView: bool)
      ensures roots == [] && checkable == checkableView && search == "" && propagates == checkableView
    {
      roots := [];
      checkable := checkableView;
      search := "";
      propagates := checkableView;
    }

    /** `add_item` (and `add_folder`, `add_file`, whose icons are none): a new item at the end of the top level or of its parent's children. */
    method AddItem(text: string, parent: Option<Path>) returns (item: Path)
      requires parent.Some? ==> Get(roots, parent.value).Some?
      modifies this`roots
      ensures item == ChildPath(old(roots), parent)
      ensures roots == AddChild(old(roots), parent, NewItem(text, checkable))
    {
      item := ChildPath(roots, parent);
      roots := AddChild(roots, parent, NewItem(text, checkable));
    }

    /** `_add_new_folder` and `_add_new_file`: a child named after the parent's child count, then the parent expands. */
    method AddNew(parent: Path, folder: bool) returns (item: Path)
      requires Get(roots, parent).Some?
      modifies this`roots
      ensures var n := Get(old(roots), parent).value;
              var name := if folder then NewFolderName(|n.children|) else NewFileName(|n.children|);
              var added := AddChild(old(roots), Some(parent), NewItem(name, checkable));
              item == parent + [|n.children|]
              && Get(added, parent).Some?
              && roots == Replace(added, parent, Get(added, parent).value.(expanded := true))
    {
      var count := |Get(roots, parent).value.children|;
      var name := if folder then NewFolderName(count) else NewFileName(count);
      item := AddItem(name, Some(parent));
      AddChildSpec(old(roots), Some(parent), NewItem(name, checkable), parent);
      roots := Replace(roots, parent, Get(roots, parent).value.(expanded := true));
    }

    /** The search box's text changes: `_filter_items` runs with the lowered text; an unchanged text emits nothing. */
    method SetSearch(text: string)
      modifies this`roots, this`search
      ensures search == text
      ensures roots == if text == old(search) then old(roots) else FilterAll(old(roots), Lower(text))
    {
      if text != search {
        search := text;
        roots := FilterItems(roots, Lower(text));
      }
    }

    /** The loop of `_filter_items` over the top-level items. */
    static method FilterItems(f: seq<Node>, s: string) returns (r: seq<Node>)
      ensures r == FilterAll(f, s)
    {
      r := [];
      var i := 0;
      while i < |f|
        invariant 0 <= i <= |f| && r == FilterAll(f[..i], s)
      {
        assert f[..i + 1] == f[..i] + [f[i]];
        FilterAllAppend(f[..i], [f[i]], s);
        r := r + [Filter(f[i], s)];
        i := i + 1;
      }
      assert f[..i] == f;
    }

    /** `_clear_search`: the search box empties, which shows every item. */
    method ClearSearch()
      modifies this`roots, this`search
      ensures search == ""
      ensures roots == if old(search) == "" then old(roots) else FilterAll(old(roots), "")
    {
      SetSearch("");
    }

    /** The context menu at an item, or none where there is no item. */
    method ContextMenuAt(p: Path) returns (actions: Option<seq<string>>)
      ensures actions.Some? <==> Get(roots, p).Some?
      ensures actions.Some? ==> actions.value == ContextMenu(Get(roots, p).value)
    {
      var item := Get(roots, p);
      if item.None? {
        return None;
      }
      actions := Some(ContextMenu(item.value));
    }

    /** `_expand_all` (flag true) and `_collapse_all` (flag false) from one item. */
    method ExpandFrom(p: Path, flag: bool)
      requires Get(roots, p).Some?
      modifies this`roots
      ensures roots == Replace(old(roots), p, ExpandAllIn(Get(old(roots), p).value, flag))
    {
      roots := Replace(roots, p, ExpandAllIn(Get(roots, p).value, flag));
    }

    /** `expand_all` (flag true) and `collapse_all` (flag false) over the whole tree. */
    method ExpandEverything(flag: bool)
      modifies this`roots
      ensures roots == ExpandAllOf(old(roots), flag)
    {
      roots := ExpandAllOf(roots, flag);
    }

    /** `_delete_item`: the item leaves its parent, or the top level. */
    method DeleteItem(p: Path)
      requires Get(roots, p).Some?
      modifies this`roots
      ensures roots == RemoveAt(old(roots), p)
    {
      roots := RemoveAt(roots, p);
    }

    method SetCheckable(b: bool)
      modifies this`checkable
      ensures checkable == b
    {
      checkable := b;
    }

    /** `get_checked_items`: the checked items, each before the items below it, siblings in order. */
    method GetCheckedItems() returns (items: seq<Path>)
      ensures items == CheckedItems(roots)
    {
      items := [];
      var i := 0;
      assert roots[0..] == roots;
      while i < |roots|
        invariant 0 <= i <= |roots|
        invariant items + CheckedInAll(roots[i..], [], i) == CheckedItems(roots)
      {
        assert roots[i..][1..] == roots[i + 1..];
        assert [] + [i] == [i];
        items := items + CheckedIn(roots[i], [i]);
        i := i + 1;
      }
      assert roots[i..] == [];
    }

    method ClearTree()
      modifies this`roots
      ensures roots == []
    {
      roots := [];
    }

    /**
     * An item's check state changes to `st`. Nothing happens for the same
     * state. Otherwise the item takes it; the checkable view then pushes
     * it to every item below, recomputes each ancestor, and emits
     * `items_checked` with the checked items. This is the intended
     * propagation; `Handle` runs the handler as Qt re-enters it.
     */
    method ChangeCheck(p: Path, st: Check) returns (itemsChecked: Option<seq<Path>>)
      requires Get(roots, p).Some?
      modifies this`roots
      ensures var n := Get(old(roots), p).value;
              if n.check == st then roots == old(roots) && itemsChecked == None
              else if propagates then roots == ApplyCheck(old(roots), p, st) && itemsChecked == Some(CheckedItems(roots))
              else roots == Replace(old(roots), p, n.(check := st)) && itemsChecked == None
    {
      var n := Get(roots, p).value;
      itemsChecked := None;
      if n.check == st {
        return;
      }
      if !propagates {
        roots := Replace(roots, p, n.(check := st));
        return;
      }
      roots := ApplyCheck(roots, p, st);
      var items := GetCheckedItems();
      itemsChecked := Some(items);
    }
  }

  lemma {:induction false} FilterAllAppend(a: seq<Node>, b: seq<Node>, s: string)
    ensures FilterAll(a + b, s) == FilterAll(a, s) + FilterAll(b, s)
  {
  }
}
