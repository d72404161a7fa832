/**
 * The data behind a comment thread (pyqt_widgets/user/comment_thread.py):
 * the comments by id, the insertion-ordered dictionary of reply lists, the
 * invariant tying them together, the layout, and what a deletion takes away.
 */
module CommentTree {
  import opened Common

  // ---------------------------------------------------------------------
  // the thread's data

  datatype CommentData = CommentData(author: string, content: string, timestamp: int, avatar: string)

  /**
   * `_comment_tree`, an insertion-ordered dictionary: its entries, each
   * owner id with the ids of its replies in the order they were added. The
   * order of its keys is kept apart (`owners`).
   */
  type Tree = map<string, seq<string>>

  /** The child ids listed under `owner`, or none. */
  function Children(tree: Tree, owner: string): seq<string>
  {
    if owner in tree then tree[owner] else []
  }

  /**
   * No id twice, stated one head at a time: the same as `Distinct` (see
   * `UniqueDistinct`), in a form the solver unfolds only as far as needed.
   */
  ghost predicate Unique(s: seq<string>)
  {
    s == [] || (s[0] !in s[1..] && Unique(s[1..]))
  }

  lemma {:induction false} UniqueDistinct(s: seq<string>)
    ensures Unique(s) <==> Distinct(s)
  {
    if s != [] {
      UniqueDistinct(s[1..]);
      if Unique(s) {
        DistinctCons(s[0], s[1..]);
        assert [s[0]] + s[1..] == s;
      }
      if Distinct(s) {
        DistinctTail(s);
      }
    }
  }

  /** `o` is one of `owners`. */
  predicate Keyed(owners: seq<string>, o: string)
  {
    o in owners
  }

  /** `owners` lists the keys of `tree` in dictionary order, each once. */
  ghost predicate KeyOrder(owners: seq<string>, tree: Tree)
  {
    Unique(owners) && forall o {:trigger Keyed(owners, o)} :: Keyed(owners, o) <==> o in tree
  }

  /** Assigning to a key keeps the key order: a new key goes last. */
  lemma OrderPut(owners: seq<string>, tree: Tree, owner: string, list: seq<string>)
    requires KeyOrder(owners, tree)
    ensures KeyOrder(if owner in tree then owners else owners + [owner], tree[owner := list])
  {
    if owner !in tree {
      assert Keyed(owners, owner) <==> owner in tree;
      UniqueDistinct(owners);
      DistinctSnoc(owners, owner);
      UniqueDistinct(owners + [owner]);
      forall o
        ensures Keyed(owners + [owner], o) <==> o in tree[owner := list]
      {
        assert Keyed(owners, o) <==> o in tree;
      }
    }
  }

  /** `del tree[id]` takes `id` out of the key order. */
  lemma OrderDel(owners: seq<string>, tree: Tree, id: string)
    requires KeyOrder(owners, tree)
    ensures KeyOrder(RemoveFirst(owners, id), tree - {id})
  {
    UniqueDistinct(owners);
    RemoveFirstDistinct(owners, id);
    UniqueDistinct(RemoveFirst(owners, id));
    forall o
      ensures Keyed(RemoveFirst(owners, id), o) <==> o in tree - {id}
    {
      assert Keyed(owners, o) <==> o in tree;
    }
  }

  /** `parent_id or "root"`. */
  function ParentKey(parentId: Option<string>): (key: string)
    ensures key != ""
    ensures parentId.Some? && parentId.value != "" ==> key == parentId.value
  {
    if parentId.Some? && parentId.value != "" then parentId.value else "root"
  }

  /** `str(len(comments))`, the id the source gives a new comment. */
  function IdAsWritten(comments: map<string, CommentData>): string
  {
    NatToStr(|comments|)
  }

  /** After two comments and the deletion of the first, the next id is the second's. */
  lemma AsWrittenIdCollides(second: CommentData, third: CommentData)
    ensures var comments := map["1" := second];
            IdAsWritten(comments) in comments
            && |comments[IdAsWritten(comments) := third]| == |comments|
            && comments[IdAsWritten(comments) := third]["1"] == third
  {
    var comments := map["1" := second];
    assert |comments| == 1;
    assert NatToStr(1) == "1";
  }

  /** `"{n} comment"` plus an "s" unless there is exactly one. */
  function CountText(n: nat): string
  {
    NatToStr(n) + " comment" + (if n != 1 then "s" else "")
  }

  lemma CountTextSpec(n: nat)
    ensures n == 1 ==> CountText(n) == "1 comment"
    ensures n != 1 ==> CountText(n) == NatToStr(n) + " comments"
  {
    assert NatToStr(1) == "1";
  }

  /**
   * `_add_comments_recursive(owner, depth)`: the comments under `owner` in
   * pre-order, each with its depth (indentation is 30 pixels per level).
   * Ids without a comment are skipped together with their replies. `fuel`
   * bounds the depth.
   */
  function Layout(tree: Tree, comments: map<string, CommentData>,
                  owner: string, depth: nat, fuel: nat): seq<(string, nat)>
    decreases fuel, 1, 0
  {
    if fuel == 0 then [] else LayoutList(tree, comments, Children(tree, owner), depth, fuel)
  }

  function LayoutList(tree: Tree, comments: map<string, CommentData>,
                      ids: seq<string>, depth: nat, fuel: nat): seq<(string, nat)>
    requires fuel > 0
    decreases fuel, 0, |ids|
  {
    if ids == [] then []
    else
      var head := if ids[0] in comments
                  then [(ids[0], depth)] + Layout(tree, comments, ids[0], depth + 1, fuel - 1)
                  else [];
      head + LayoutList(tree, comments, ids[1..], depth, fuel)
  }

  /** `_rebuild_comments_ui`: everything reachable from "root". */
  function Shown(tree: Tree, comments: map<string, CommentData>): seq<(string, nat)>
  {
    Layout(tree, comments, "root", 0, |comments|)
  }

  /** Every comment listed under an owner is shown at that owner's depth. */
  lemma {:induction false} LayoutListShows(tree: Tree, comments: map<string, CommentData>,
                                           ids: seq<string>, depth: nat, fuel: nat, x: string)
    requires fuel > 0 && x in ids && x in comments
    ensures (x, depth) in LayoutList(tree, comments, ids, depth, fuel)
    decreases |ids|
  {
    var head := if ids[0] in comments
                then [(ids[0], depth)] + Layout(tree, comments, ids[0], depth + 1, fuel - 1)
                else [];
    var rest := LayoutList(tree, comments, ids[1..], depth, fuel);
    if ids[0] == x {
      assert head[0] == (x, depth);
      assert (head + rest)[0] == (x, depth);
    } else {
      LayoutListShows(tree, comments, ids[1..], depth, fuel, x);
      var k :| 0 <= k < |rest| && rest[k] == (x, depth);
      assert (head + rest)[|head| + k] == (x, depth);
    }
  }

  /** Every top-level comment is shown, unindented. */
  lemma {:induction false} ShownTopLevel(tree: Tree, comments: map<string, CommentData>, x: string)
    requires x in Children(tree, "root") && x in comments
    ensures (x, 0) in Shown(tree, comments)
  {
    LayoutListShows(tree, comments, Children(tree, "root"), 0, |comments|, x);
  }

  /** Only comments are laid out, none above the depth they start at. */
  ghost predicate Indented(r: seq<(string, nat)>, comments: map<string, CommentData>, depth: nat)
  {
    forall k :: 0 <= k < |r| ==> r[k].0 in comments && r[k].1 >= depth
  }

  lemma {:induction false} LayoutIndented(tree: Tree, comments: map<string, CommentData>,
                                          owner: string, depth: nat, fuel: nat)
    ensures Indented(Layout(tree, comments, owner, depth, fuel), comments, depth)
    decreases fuel, 1, 0
  {
    if fuel > 0 {
      LayoutListIndented(tree, comments, Children(tree, owner), depth, fuel);
    }
  }

  lemma {:induction false} LayoutListIndented(tree: Tree, comments: map<string, CommentData>,
                                              ids: seq<string>, depth: nat, fuel: nat)
    requires fuel > 0
    ensures Indented(LayoutList(tree, comments, ids, depth, fuel), comments, depth)
    decreases fuel, 0, |ids|
  {
    if ids != [] {
      var sub := Layout(tree, comments, ids[0], depth + 1, fuel - 1);
      LayoutIndented(tree, comments, ids[0], depth + 1, fuel - 1);
      LayoutListIndented(tree, comments, ids[1..], depth, fuel);
      var head: seq<(string, nat)> := if ids[0] in comments then [(ids[0], depth)] + sub else [];
      var rest := LayoutList(tree, comments, ids[1..], depth, fuel);
      forall k | 0 <= k < |head + rest|
        ensures (head + rest)[k].0 in comments && (head + rest)[k].1 >= depth
      {
        if k < |head| {
          if k > 0 {
            assert head[k] == sub[k - 1];
          }
        } else {
          assert (head + rest)[k] == rest[k - |head|];
        }
      }
    }
  }

  /** The layout shows comments only. */
  lemma ShownIndented(tree: Tree, comments: map<string, CommentData>)
    ensures Indented(Shown(tree, comments), comments, 0)
  {
    LayoutIndented(tree, comments, "root", 0, |comments|);
  }

  // ---------------------------------------------------------------------
  // the thread's invariant

  /** `x` is one of `keys`, recorded as a reply to `owner`. */
  predicate Recorded(keys: set<string>, parent: map<string, string>, x: string, owner: string)
  {
    x in keys && x in parent && parent[x] == owner
  }

  /** Every listed id is one of `keys` and was recorded as a reply to the list's owner. */
  ghost predicate Linked(kids: Tree, keys: set<string>, parent: map<string, string>)
  {
    forall o, x {:trigger Recorded(keys, parent, x, o)} :: o in kids && x in kids[o] ==> Recorded(keys, parent, x, o)
  }

  /** An id that is not one of `keys` is in no list. */
  lemma Unfiled(kids: Tree, keys: set<string>, parent: map<string, string>, x: string)
    requires Linked(kids, keys, parent) && x !in keys
    ensures forall o :: o in kids ==> x !in kids[o]
  {
    forall o | o in kids
      ensures x !in kids[o]
    {
      assert x in kids[o] ==> Recorded(keys, parent, x, o);
    }
  }

  /** No list repeats an id. */
  ghost predicate Unrepeated(kids: Tree)
  {
    forall o {:trigger Unique(kids[o])} :: o in kids ==> Unique(kids[o])
  }

  /** Comment `c` is listed under its recorded parent. */
  ghost predicate Filed(kids: Tree, parent: map<string, string>, c: string)
  {
    c in parent && parent[c] in kids && c in kids[parent[c]]
  }

  /** Every comment is listed under its recorded parent. */
  ghost predicate Complete(kids: Tree, keys: set<string>, parent: map<string, string>)
  {
    forall c {:trigger Filed(kids, parent, c)} :: c in keys ==> Filed(kids, parent, c)
  }

  /** The decimal spelling of `n` is one of `keys`. */
  ghost predicate Taken(keys: set<string>, n: nat)
  {
    NatToStr(n) in keys
  }

  /** Every key that reads as a number is below `issued`. */
  ghost predicate Numbered(keys: set<string>, issued: nat)
  {
    forall n: nat {:trigger Taken(keys, n)} :: Taken(keys, n) ==> n < issued
  }

  /**
   * The thread's invariant: the lists and the comments agree, and every id
   * still to be handed out is free.
   */
  ghost predicate Consistent(kids: Tree, comments: map<string, CommentData>,
                             parent: map<string, string>, issued: nat, removed: nat)
  {
    Linked(kids, comments.Keys, parent) && Unrepeated(kids) && Complete(kids, comments.Keys, parent)
    && Numbered(comments.Keys, issued) && issued == |comments| + removed
  }

  /** The invariant while `id`, already gone from `comments`, is still listed. */
  ghost predicate Detached(kids: Tree, comments: map<string, CommentData>,
                           parent: map<string, string>, issued: nat, removed: nat, id: string)
  {
    id !in comments && Linked(kids, comments.Keys + {id}, parent) && Unrepeated(kids)
    && Complete(kids, comments.Keys, parent) && Numbered(comments.Keys, issued)
    && issued == |comments| + removed
  }

  /** Appending the next free id under `owner` keeps the invariant. */
  lemma AddKeeps(kids: Tree, comments: map<string, CommentData>,
                 parent: map<string, string>, issued: nat, removed: nat, data: CommentData, owner: string)
    requires Consistent(kids, comments, parent, issued, removed)
    ensures var id := NatToStr(issued);
            var list := if owner in kids then kids[owner] else [];
            id !in comments
            && Consistent(kids[owner := list + [id]], comments[id := data], parent[id := owner], issued + 1, removed)
  {
    var id := NatToStr(issued);
    var list := if owner in kids then kids[owner] else [];
    var k, c, p := kids[owner := list + [id]], comments[id := data], parent[id := owner];
    AddNumbered(comments.Keys, issued);
    assert c.Keys == comments.Keys + {id};
    assert |c| == |comments| + 1;
    AddLinked(kids, comments.Keys, parent, id, owner);
    AddUnrepeated(kids, comments.Keys, parent, id, owner);
    AddComplete(kids, comments.Keys, parent, id, owner);
  }

  lemma AddLinked(kids: Tree, keys: set<string>, parent: map<string, string>,
                  id: string, owner: string)
    requires Linked(kids, keys, parent) && id !in keys
    ensures var list := if owner in kids then kids[owner] else [];
            Linked(kids[owner := list + [id]], keys + {id}, parent[id := owner])
  {
    var list := if owner in kids then kids[owner] else [];
    var k := kids[owner := list + [id]];
    forall o, x | o in k && x in k[o]
      ensures Recorded(keys + {id}, parent[id := owner], x, o)
    {
      if o != owner || x != id {
        assert x in kids[o];
        assert Recorded(keys, parent, x, o);
      }
    }
  }

  lemma AddUnrepeated(kids: Tree, keys: set<string>, parent: map<string, string>,
                      id: string, owner: string)
    requires Linked(kids, keys, parent) && Unrepeated(kids) && id !in keys
    ensures var list := if owner in kids then kids[owner] else [];
            Unrepeated(kids[owner := list + [id]])
  {
    var list := if owner in kids then kids[owner] else [];
    forall x | x in list
      ensures x in keys
    {
      assert Recorded(keys, parent, x, owner);
    }
    if owner in kids {
      assert Unique(kids[owner]);
    }
    UniqueDistinct(list);
    DistinctSnoc(list, id);
    UniqueDistinct(list + [id]);
    var k := kids[owner := list + [id]];
    forall o | o in k
      ensures Unique(k[o])
    {
      if o != owner {
        assert Unique(kids[o]);
      }
    }
  }

  lemma AddComplete(kids: Tree, keys: set<string>, parent: map<string, string>,
                    id: string, owner: string)
    requires Complete(kids, keys, parent)
    ensures var list := if owner in kids then kids[owner] else [];
            Complete(kids[owner := list + [id]], keys + {id}, parent[id := owner])
  {
    var list := if owner in kids then kids[owner] else [];
    var k, p := kids[owner := list + [id]], parent[id := owner];
    forall x | x in keys + {id}
      ensures Filed(k, p, x)
    {
      if x != id {
        assert Filed(kids, parent, x);
      }
    }
  }

  lemma AddNumbered(keys: set<string>, issued: nat)
    requires Numbered(keys, issued)
    ensures NatToStr(issued) !in keys && Numbered(keys + {NatToStr(issued)}, issued + 1)
  {
    assert !Taken(keys, issued);
    forall n: nat | Taken(keys + {NatToStr(issued)}, n)
      ensures n < issued + 1
    {
      if NatToStr(n) == NatToStr(issued) {
        NatToStrInjective(n, issued);
      } else {
        assert Taken(keys, n);
      }
    }
  }

  /** Changing a comment's data keeps the invariant. */
  lemma EditKeeps(kids: Tree, comments: map<string, CommentData>,
                  parent: map<string, string>, issued: nat, removed: nat, id: string, data: CommentData)
    requires Consistent(kids, comments, parent, issued, removed) && id in comments
    ensures Consistent(kids, comments[id := data], parent, issued, removed)
  {
    assert comments[id := data].Keys == comments.Keys;
  }

  /** Taking a comment out of `comments` leaves it detached. */
  lemma DetachKeeps(kids: Tree, comments: map<string, CommentData>,
                    parent: map<string, string>, issued: nat, removed: nat, id: string)
    requires Consistent(kids, comments, parent, issued, removed) && id in comments
    ensures Detached(kids, comments - {id}, parent, issued, removed + 1, id)
  {
    var c := comments - {id};
    assert c.Keys + {id} == comments.Keys;
    forall x | x in c.Keys
      ensures Filed(kids, parent, x)
    {
      assert Filed(kids, parent, x);
    }
    forall n: nat | Taken(c.Keys, n)
      ensures n < issued
    {
      assert Taken(comments.Keys, n);
    }
  }

  /** Taking a detached id out of the list holding it restores the invariant. */
  lemma UnlistKeeps(kids: Tree, comments: map<string, CommentData>,
                    parent: map<string, string>, issued: nat, removed: nat, id: string, owner: string)
    requires Detached(kids, comments, parent, issued, removed, id)
    requires owner in kids && id in kids[owner]
    ensures Consistent(kids[owner := RemoveFirst(kids[owner], id)], comments, parent, issued, removed)
  {
    var keys := comments.Keys;
    var k := kids[owner := RemoveFirst(kids[owner], id)];
    assert Unique(kids[owner]);
    UniqueDistinct(kids[owner]);
    RemoveFirstDistinct(kids[owner], id);
    UniqueDistinct(RemoveFirst(kids[owner], id));
    assert Recorded(keys + {id}, parent, id, owner);
    forall o, x | o in k && x in k[o]
      ensures Recorded(keys, parent, x, o)
    {
      assert x in kids[o];
      assert Recorded(keys + {id}, parent, x, o);
    }
    forall o | o in k
      ensures Unique(k[o])
    {
      if o != owner {
        assert Unique(kids[o]);
      }
    }
    forall c | c in keys
      ensures Filed(k, parent, c)
    {
      assert Filed(kids, parent, c);
    }
  }

  /** A detached id that no list holds leaves the invariant as it was. */
  lemma UnlistedKeeps(kids: Tree, comments: map<string, CommentData>,
                      parent: map<string, string>, issued: nat, removed: nat, id: string)
    requires Detached(kids, comments, parent, issued, removed, id)
    requires forall o :: o in kids ==> id !in kids[o]
    ensures Consistent(kids, comments, parent, issued, removed)
  {
    var keys := comments.Keys;
    forall o, x | o in kids && x in kids[o]
      ensures Recorded(keys, parent, x, o)
    {
      assert Recorded(keys + {id}, parent, x, o);
    }
  }

  /** Dropping the list of an owner no comment is recorded under keeps the invariant. */
  lemma UnkeyKeeps(kids: Tree, comments: map<string, CommentData>,
                   parent: map<string, string>, issued: nat, removed: nat, id: string)
    requires Consistent(kids, comments, parent, issued, removed)
    requires forall c :: c in comments && c in parent ==> parent[c] != id
    ensures Consistent(kids - {id}, comments, parent, issued, removed)
  {
    var keys, k := comments.Keys, kids - {id};
    forall o, x | o in k && x in k[o]
      ensures Recorded(keys, parent, x, o)
    {
      assert Recorded(keys, parent, x, o);
    }
    forall o | o in k
      ensures Unique(k[o])
    {
      assert Unique(kids[o]);
    }
    forall c | c in keys
      ensures Filed(k, parent, c)
    {
      assert Filed(kids, parent, c);
    }
  }

  /** The list under `id` holds exactly the comments recorded as its replies. */
  lemma ReplyList(kids: Tree, comments: map<string, CommentData>,
                  parent: map<string, string>, issued: nat, removed: nat, id: string)
    requires Consistent(kids, comments, parent, issued, removed)
    ensures var replies := if id in kids then kids[id] else [];
            (forall x :: x in replies ==> x in parent && parent[x] == id)
            && (forall c :: c in comments && c in parent && parent[c] == id ==> c in replies)
  {
    var replies := if id in kids then kids[id] else [];
    forall x | x in replies
      ensures x in parent && parent[x] == id
    {
      assert Recorded(comments.Keys, parent, x, id);
    }
    forall c | c in comments && c in parent && parent[c] == id
      ensures c in replies
    {
      assert Filed(kids, parent, c);
    }
  }

  /** Once every reply listed under `id` is deleted, no comment is a reply to `id`. */
  lemma Unreplied(comments: map<string, CommentData>, before: map<string, CommentData>,
                  parent: map<string, string>, id: string, replies: seq<string>)
    requires comments.Keys <= before.Keys
    requires forall c :: c in before && c in parent && parent[c] == id ==> c in replies
    requires forall i :: 0 <= i < |replies| ==> replies[i] !in comments
    ensures forall c :: c in comments && c in parent ==> parent[c] != id
  {
  }


  // ---------------------------------------------------------------------
  // what a deletion takes away

  /** `deleted` names each id of `gone` exactly once. */
  ghost predicate Lists(deleted: seq<string>, gone: set<string>)
  {
    Elems(deleted) == gone && |deleted| == |gone|
  }

  lemma ListsNone()
    ensures Lists([], {})
  {
    assert Elems<string>([]) == {};
  }

  lemma {:induction false} ListsConcat(a: seq<string>, d: seq<string>, ga: set<string>, gd: set<string>)
    requires Lists(a, ga) && Lists(d, gd) && ga !! gd
    ensures Lists(a + d, ga + gd)
  {
    assert Elems(a + d) == Elems(a) + Elems(d);
  }

  lemma {:induction false} ListsSnoc(inner: seq<string>, g: set<string>, id: string)
    requires Lists(inner, g) && id !in g
    ensures Lists(inner + [id], g + {id})
  {
    assert Elems(inner + [id]) == Elems(inner) + {id};
  }

  /** `x` is one of the ids a deletion took away. */
  predicate Gone(gone: set<string>, x: string)
  {
    x in gone
  }

  /** `after` is `before` without the `gone` ids, each of which was a comment. */
  ghost predicate Removed(before: map<string, CommentData>, after: map<string, CommentData>, gone: set<string>)
  {
    gone <= before.Keys && after == before - gone
  }

  /** Every id taken away is `id` itself or a reply to an id taken away. */
  ghost predicate Subtree(parent: map<string, string>, gone: set<string>, id: string)
  {
    forall x {:trigger Gone(gone, x)} :: Gone(gone, x) ==> x == id || (x in parent && parent[x] in gone)
  }

  /** Every id taken away is a reply to `id` or to an id taken away. */
  ghost predicate Under(parent: map<string, string>, gone: set<string>, id: string)
  {
    forall x {:trigger Gone(gone, x)} :: Gone(gone, x) ==> x in parent && (parent[x] == id || parent[x] in gone)
  }

  /** Two deletions in a row take away disjoint sets, one after the other. */
  lemma RemovedConcat(c0: map<string, CommentData>, c1: map<string, CommentData>,
                      c2: map<string, CommentData>, ga: set<string>, gd: set<string>)
    requires Removed(c0, c1, ga) && Removed(c1, c2, gd)
    ensures Removed(c0, c2, ga + gd) && ga !! gd && |ga + gd| == |ga| + |gd|
  {
    assert c1.Keys == c0.Keys - ga;
    assert c2 == c0 - (ga + gd);
  }

  /** Removing `id` and then `g` removes `g + {id}`. */
  lemma RemovedSnoc(c0: map<string, CommentData>, c2: map<string, CommentData>, g: set<string>, id: string)
    requires id in c0 && Removed(c0 - {id}, c2, g)
    ensures Removed(c0, c2, g + {id}) && id !in g && |g + {id}| == |g| + 1
  {
    assert (c0 - {id}).Keys == c0.Keys - {id};
    assert c2 == c0 - (g + {id});
  }

  lemma SubtreeSnoc(parent: map<string, string>, g: set<string>, id: string)
    requires Under(parent, g, id)
    ensures Subtree(parent, g + {id}, id)
  {
    forall x | Gone(g + {id}, x)
      ensures x == id || (x in parent && parent[x] in g + {id})
    {
      if x != id {
        assert Gone(g, x);
      }
    }
  }

  /** The subtree of a reply `r` of `id`, taken away after other descendants of `id`. */
  lemma UnderConcat(parent: map<string, string>, ga: set<string>, gd: set<string>, r: string, id: string)
    requires Under(parent, ga, id) && Subtree(parent, gd, r) && r in parent && parent[r] == id
    ensures Under(parent, ga + gd, id)
  {
    forall x | Gone(ga + gd, x)
      ensures x in parent && (parent[x] == id || parent[x] in ga + gd)
    {
      if x in ga {
        assert Gone(ga, x);
      } else {
        assert Gone(gd, x);
      }
    }
  }

  /** `o` owns a list in `tree`. */
  predicate Owns(tree: Tree, o: string)
  {
    o in tree
  }

  /** The owners of lists in `after` are those of `before` but for the `gone` ids. */
  ghost predicate Dropped(before: Tree, after: Tree, gone: set<string>)
  {
    forall o {:trigger Owns(after, o)} {:trigger Owns(before, o)} :: Owns(after, o) <==> Owns(before, o) && o !in gone
  }

  lemma DroppedNone(before: Tree, after: Tree)
    requires after.Keys == before.Keys
    ensures Dropped(before, after, {})
  {
    forall o
      ensures Owns(after, o) <==> Owns(before, o) && o !in {}
    {
      assert Owns(after, o) == (o in after.Keys);
    }
  }

  /** Lists dropped from a tree with the same owners as `before` are dropped from `before`. */
  lemma DroppedRekeyed(before: Tree, same: Tree, after: Tree, g: set<string>)
    requires same.Keys == before.Keys && Dropped(same, after, g)
    ensures Dropped(before, after, g)
  {
    forall o
      ensures Owns(after, o) <==> Owns(before, o) && o !in g
    {
      assert Owns(same, o) == (o in same.Keys);
    }
  }

  /** A tree with the owners of `before` but `id` drops just the list of `id`. */
  lemma DroppedOnly(before: Tree, after: Tree, g: set<string>, id: string)
    requires after.Keys == before.Keys && id !in after && g == {}
    ensures Dropped(before, after, g + {id})
  {
    forall o
      ensures Owns(after, o) <==> Owns(before, o) && o !in g + {id}
    {
      assert Owns(after, o) == (o in after.Keys);
    }
  }

  lemma DroppedConcat(t0: Tree, t1: Tree, t2: Tree, ga: set<string>, gd: set<string>)
    requires Dropped(t0, t1, ga) && Dropped(t1, t2, gd)
    ensures Dropped(t0, t2, ga + gd)
  {
    forall o
      ensures Owns(t2, o) <==> Owns(t0, o) && o !in ga + gd
    {
      assert Owns(t1, o) <==> Owns(t0, o) && o !in ga;
    }
  }

  /** Dropping the list of `id` after the lists of `g` drops those of `g + {id}`. */
  lemma DroppedUnkey(t0: Tree, t1: Tree, g: set<string>, id: string)
    requires Dropped(t0, t1, g)
    ensures Dropped(t0, t1 - {id}, g + {id})
  {
    forall o
      ensures Owns(t1 - {id}, o) <==> Owns(t0, o) && o !in g + {id}
    {
      assert Owns(t1, o) <==> Owns(t0, o) && o !in g;
    }
  }

  // ---------------------------------------------------------------------
  // the dictionaries together

  /** `_comments` and `_comment_tree`, with the key order of the latter. */
  datatype Thread = Thread(comments: map<string, CommentData>, tree: Tree, owners: seq<string>)

  /** The thread's invariant, with `owners` ordering the keys of `tree`. */
  ghost predicate Intact(t: Thread, parent: map<string, string>, issued: nat, removed: nat)
  {
    KeyOrder(t.owners, t.tree) && Consistent(t.tree, t.comments, parent, issued, removed)
  }

  /** A cleared thread, numbering from zero, keeps the invariant whatever was recorded before. */
  lemma EmptyIntact(parent: map<string, string>)
    ensures Intact(Thread(map[], map[], []), parent, 0, 0)
  {
    assert Elems<string>([]) == {};
    forall n: nat
      ensures !Taken({}, n)
    {
    }
  }

  /**
   * After a deletion that took away the `gone` ids, none of them is a
   * comment or owns a list, no list holds one of them and no comment left
   * is a reply to one of them.
   */
  lemma DeletedGone(before: Thread, after: Thread, parent: map<string, string>,
                    issued: nat, removed: nat, gone: set<string>)
    requires Intact(after, parent, issued, removed)
    requires Removed(before.comments, after.comments, gone) && Dropped(before.tree, after.tree, gone)
    ensures forall x :: x in gone ==> x !in after.comments && x !in after.tree
    ensures forall o, x :: o in after.tree && x in after.tree[o] ==> x !in gone
    ensures forall c :: c in after.comments ==> c in parent && parent[c] !in gone
  {
    forall x | x in gone
      ensures x !in after.comments && x !in after.tree
    {
      assert Owns(after.tree, x) ==> Owns(before.tree, x) && x !in gone;
    }
    forall o, x | o in after.tree && x in after.tree[o]
      ensures x !in gone
    {
      assert Recorded(after.comments.Keys, parent, x, o);
    }
    forall c | c in after.comments
      ensures c in parent && parent[c] !in gone
    {
      assert Filed(after.tree, parent, c);
    }
  }
}
