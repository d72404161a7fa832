/**
 * A threaded comment list (pyqt_widgets/user/comment_thread.py).
 *
 * `CommentWidget` is one comment: its like button and its in-place editor.
 * `CommentThreadWidget` keeps the comments by id and, in an insertion-ordered
 * dictionary, the list of child ids under each parent id ("root" for the top
 * level). Deleting a comment deletes its replies first, depth first, and the
 * layout shows the comments reachable from "root" in pre-order, indented by
 * depth.
 *
 * The source numbers a new comment `str(len(comments))`, which repeats an id
 * that is still in use once a comment has been deleted. The thread below
 * numbers comments from a counter instead (reset by `clear_comments`, like
 * the length is); `AddCommentAsWritten` and `PostComment` keep the
 * source's numbering and `AsWrittenIdCollides` shows the clash.
 */
module CommentThread {
  import opened Common
  import opened CommentTree

  // ---------------------------------------------------------------------
  // one comment

  /** Seconds in one unit of the "…m ago" / "…h ago" / "…d ago" label. */
  function UnitSeconds(unit: char): nat
  {
    match unit
    case 'm' => 60
    case 'h' => 3600
    case _ => 86400
  }

  /**
   * `_format_timestamp` on the seconds elapsed since the comment: None for
   * "just now", otherwise the largest unit that fits and how many whole
   * units have passed.
   */
  function Elapsed(seconds: int): (r: Option<(nat, char)>)
    ensures r.None? <==> seconds < 60
    ensures r.Some? ==> (r.value.1 == 'm' <==> 60 <= seconds < 3600)
    ensures r.Some? ==> (r.value.1 == 'h' <==> 3600 <= seconds < 86400)
    ensures r.Some? ==> (r.value.1 == 'd' <==> 86400 <= seconds)
    ensures r.Some? ==>
              1 <= r.value.0 &&
              UnitSeconds(r.value.1) * r.value.0 <= seconds < UnitSeconds(r.value.1) * (r.value.0 + 1)
  {
    if seconds < 60 then None
    else if seconds < 3600 then Some((seconds / 60, 'm'))
    else if seconds < 86400 then Some((seconds / 3600, 'h'))
    else Some((seconds / 86400, 'd'))
  }

  /** The label itself. */
  function Ago(seconds: int): (r: string)
    ensures r == "just now" <==> seconds < 60
  {
    match Elapsed(seconds)
    case None => "just now"
    case Some((n, unit)) =>
      var r := NatToStr(n) + [unit] + " ago";
      assert IsDigit(r[0]);
      r
  }

  /** `_on_like_clicked` on (liked, likes). */
  function Like(liked: bool, likes: int): (bool, int)
  {
    if liked then (false, likes - 1) else (true, likes + 1)
  }

  /** The first click adds one like, the second takes it back. */
  lemma LikeTwice(likes: int)
    ensures Like(false, likes) == (true, likes + 1)
    ensures Like(Like(false, likes).0, Like(false, likes).1) == (false, likes)
  {
  }

  /** `_save_edit`: the content after saving the editor's text. */
  function SavedContent(content: string, draft: string): string
  {
    var t := Strip(draft);
    if t != "" then t else content
  }

  /**
   * Saving keeps the old content for a blank draft and otherwise stores the
   * draft without surrounding whitespace; saving that again changes nothing.
   */
  lemma SavedContentSpec(content: string, draft: string)
    ensures AllSpace(draft) ==> SavedContent(content, draft) == content
    ensures !AllSpace(draft) ==>
              var r := SavedContent(content, draft);
              r != "" && !IsSpace(r[0]) && !IsSpace(r[|r| - 1]) && r == Strip(draft)
    ensures SavedContent(SavedContent(content, draft), draft) == SavedContent(content, draft)
  {
    StripEmptyIff(draft);
  }

  class CommentWidget {
    const author: string
    var content: string
    var likes: int
    var liked: bool
    var editing: bool
    /** The text in the edit box. */
    var draft: string

    constructor(author: string, content: string, likes: int)
      ensures this.author == author && this.content == content && this.likes == likes
      ensures !liked && !editing && draft == content
    {
      this.author := author;
      this.content := content;
      this.likes := likes;
      liked := false;
      editing := false;
      draft := content;
    }

    /** The like button's caption. */
    function LikeCaption(): string
      reads this
    {
      "👍 " + IntToStr(likes)
    }

    method LikeClicked()
      modifies this`liked, this`likes
      ensures (liked, likes) == Like(old(liked), old(likes))
    {
      liked := !liked;
      if liked {
        likes := likes + 1;
      } else {
        likes := likes - 1;
      }
    }

    /** The Edit button: starts editing, or cancels an edit in progress. */
    method ToggleEdit()
      modifies this`editing, this`draft
      ensures editing == !old(editing)
      ensures draft == if old(editing) then content else old(draft)
    {
      if editing {
        CancelEdit();
      } else {
        StartEdit();
      }
    }

    method StartEdit()
      modifies this`editing
      ensures editing
    {
      editing := true;
    }

    /** Typing into the edit box. */
    method TypeDraft(text: string)
      modifies this`draft
      ensures draft == text
    {
      draft := text;
    }

    /** Save: a non-blank draft, stripped, becomes the content and `edit_clicked` is emitted. */
    method SaveEdit() returns (emitted: bool)
      modifies this`content, this`editing
      ensures content == SavedContent(old(content), draft)
      ensures emitted <==> !AllSpace(draft)
      ensures !editing
    {
      var t := Strip(draft);
      StripEmptyIff(draft);
      emitted := t != [];
      if emitted {
        content := t;
      }
      editing := false;
    }

    /** Cancel: the edit box goes back to the saved content. */
    method CancelEdit()
      modifies this`draft, this`editing
      ensures draft == content && !editing
    {
      draft := content;
      editing := false;
    }
  }

  // ---------------------------------------------------------------------
  // deleting, on the dictionaries themselves

  /**
   * `_delete_comment` on the dictionaries: deletes `id` and, first, every
   * reply under it; `deleted` lists the `comment_deleted` signals in the
   * order they are emitted, and `gone` is the set of ids they name. An id
   * that is not a comment changes nothing.
   */
  method Delete(t: Thread, ghost parent: map<string, string>, ghost issued: nat, ghost removed: nat,
                id: string) returns (r: Thread, deleted: seq<string>, ghost gone: set<string>)
    requires Intact(t, parent, issued, removed)
    ensures Intact(r, parent, issued, removed + |gone|) && id !in r.comments
    ensures Lists(deleted, gone)
    ensures id !in t.comments ==> r == t && deleted == []
    ensures id in t.comments ==> deleted != [] && deleted[|deleted| - 1] == id
    // exactly the deleted ids go, each once: `id` and replies to deleted ids
    ensures Removed(t.comments, r.comments, gone) && Subtree(parent, gone, id)
    // the lists of the deleted ids, and only those, are dropped
    ensures Dropped(t.tree, r.tree, gone)
    decreases |t.comments|, 3
  {
    if id in t.comments {
      DetachKeeps(t.tree, t.comments, parent, issued, removed, id);
      var inner; ghost var g;
      r, inner, g := RemoveFromTree(Thread(t.comments - {id}, t.tree, t.owners), parent, issued, removed + 1, id);
      deleted, gone := inner + [id], g + {id};
      RemovedSnoc(t.comments, r.comments, g, id);
      SubtreeSnoc(parent, g, id);
      ListsSnoc(inner, g, id);
    } else {
      r, deleted, gone := t, [], {};
      ListsNone();
      DroppedNone(t.tree, t.tree);
    }
  }

  /**
   * `_remove_from_tree`: takes `id`, already gone from `comments`, out of
   * the first list holding it; if it owns a list, deletes each of its
   * replies from a copy of that list, then drops the list.
   */
  method RemoveFromTree(t: Thread, ghost parent: map<string, string>, ghost issued: nat, ghost removed: nat,
                        id: string) returns (r: Thread, deleted: seq<string>, ghost gone: set<string>)
    requires KeyOrder(t.owners, t.tree) && Detached(t.tree, t.comments, parent, issued, removed, id)
    ensures Intact(r, parent, issued, removed + |gone|) && id !in r.comments && id !in r.tree
    ensures Lists(deleted, gone)
    ensures Removed(t.comments, r.comments, gone) && Under(parent, gone, id)
    ensures Dropped(t.tree, r.tree, gone + {id})
    decreases |t.comments| + 1, 2
  {
    var kids := Unlist(t, parent, issued, removed, id);
    r, deleted, gone := DropOwner(Thread(t.comments, kids, t.owners), parent, issued, removed, id);
    DroppedRekeyed(t.tree, kids, r.tree, gone + {id});
  }

  /**
   * The second half of `_remove_from_tree`: if `id` owns a list, its
   * replies are deleted and the list is dropped.
   */
  method DropOwner(t: Thread, ghost parent: map<string, string>, ghost issued: nat, ghost removed: nat,
                   id: string) returns (r: Thread, deleted: seq<string>, ghost gone: set<string>)
    requires Intact(t, parent, issued, removed) && id !in t.comments
    ensures Intact(r, parent, issued, removed + |gone|) && id !in r.comments && id !in r.tree
    ensures Lists(deleted, gone)
    ensures Removed(t.comments, r.comments, gone) && Under(parent, gone, id)
    ensures Dropped(t.tree, r.tree, gone + {id})
    decreases |t.comments| + 1, 1
  {
    if id in t.tree {
      ReplyList(t.tree, t.comments, parent, issued, removed, id);
      var next;
      next, deleted, gone := DeleteReplies(t, parent, issued, removed, id, t.tree[id]);
      DropKeeps(t, next, parent, issued, removed, id, gone);
      DroppedUnkey(t.tree, next.tree, gone, id);
      r := Thread(next.comments, next.tree - {id}, RemoveFirst(next.owners, id));
    } else {
      r, deleted, gone := t, [], {};
      ListsNone();
      DroppedOnly(t.tree, t.tree, gone, id);
    }
  }

  /** Once the replies listed under `id` are deleted, dropping its list keeps the invariant. */
  lemma DropKeeps(t: Thread, next: Thread, parent: map<string, string>, issued: nat, removed: nat,
                  id: string, gone: set<string>)
    requires Intact(t, parent, issued, removed) && id !in t.comments && id in t.tree
    requires Intact(next, parent, issued, removed + |gone|)
    requires Removed(t.comments, next.comments, gone) && Dropped(t.tree, next.tree, gone)
    requires forall i :: 0 <= i < |t.tree[id]| ==> t.tree[id][i] !in next.comments
    ensures id in next.tree
    ensures Intact(Thread(next.comments, next.tree - {id}, RemoveFirst(next.owners, id)),
                   parent, issued, removed + |gone|)
  {
    ReplyList(t.tree, t.comments, parent, issued, removed, id);
    assert next.comments.Keys <= t.comments.Keys;
    Unreplied(next.comments, t.comments, parent, id, t.tree[id]);
    assert id !in gone && Owns(t.tree, id);
    UnkeyKeeps(next.tree, next.comments, parent, issued, removed + |gone|, id);
    OrderDel(next.owners, next.tree, id);
  }

  /**
   * The first loop of `_remove_from_tree`: `id` leaves the first list that
   * holds it, which is the only one.
   */
  method Unlist(t: Thread, ghost parent: map<string, string>, ghost issued: nat, ghost removed: nat,
                id: string) returns (kids: Tree)
    requires KeyOrder(t.owners, t.tree) && Detached(t.tree, t.comments, parent, issued, removed, id)
    ensures Intact(Thread(t.comments, kids, t.owners), parent, issued, removed)
    ensures kids.Keys == t.tree.Keys
    ensures forall o :: o in kids ==> id !in kids[o]
  {
    forall i | 0 <= i < |t.owners|
      ensures t.owners[i] in t.tree
    {
      assert Keyed(t.owners, t.owners[i]);
    }
    var k := 0;
    while k < |t.owners| && id !in t.tree[t.owners[k]]
      invariant k <= |t.owners|
      invariant forall i :: 0 <= i < k ==> id !in t.tree[t.owners[i]]
    {
      k := k + 1;
    }
    if k < |t.owners| {
      var owner := t.owners[k];
      UnlistKeeps(t.tree, t.comments, parent, issued, removed, id, owner);
      kids := t.tree[owner := RemoveFirst(t.tree[owner], id)];
    } else {
      forall o | o in t.tree
        ensures id !in t.tree[o]
      {
        assert Keyed(t.owners, o);
        var i := IndexOf(t.owners, o);
      }
      UnlistedKeeps(t.tree, t.comments, parent, issued, removed, id);
      kids := t.tree;
    }
    Unfiled(kids, t.comments.Keys, parent, id);
  }

  /** A reply's deletion, after earlier ones under the same `id`, adds up with them. */
  lemma DeletedConcat(t: Thread, r: Thread, next: Thread, parent: map<string, string>,
                      id: string, x: string, deleted: seq<string>, d: seq<string>,
                      gone: set<string>, g: set<string>)
    requires Lists(deleted, gone) && Lists(d, g)
    requires Removed(t.comments, r.comments, gone) && Under(parent, gone, id)
    requires Dropped(t.tree, r.tree, gone)
    requires Removed(r.comments, next.comments, g) && Subtree(parent, g, x)
    requires Dropped(r.tree, next.tree, g)
    requires x in parent && parent[x] == id
    ensures Lists(deleted + d, gone + g) && |gone + g| == |gone| + |g|
    ensures Removed(t.comments, next.comments, gone + g) && Under(parent, gone + g, id)
    ensures Dropped(t.tree, next.tree, gone + g)
  {
    DroppedConcat(t.tree, r.tree, next.tree, gone, g);
    RemovedConcat(t.comments, r.comments, next.comments, gone, g);
    UnderConcat(parent, gone, g, x, id);
    ListsConcat(deleted, d, gone, g);
  }

  /** Replies already deleted stay deleted while the next one is. */
  lemma RepliesGone(r: map<string, CommentData>, next: map<string, CommentData>, g: set<string>,
                    replies: seq<string>, j: nat)
    requires Removed(r, next, g) && j < |replies| && replies[j] !in next
    requires forall i :: 0 <= i < j ==> replies[i] !in r
    ensures forall i :: 0 <= i <= j ==> replies[i] !in next
  {
  }

  /**
   * The second loop of `_remove_from_tree`: each of `replies`, a copy of
   * the list under `id`, is deleted in turn.
   */
  method DeleteReplies(t: Thread, ghost parent: map<string, string>, ghost issued: nat, ghost removed: nat,
                       id: string, replies: seq<string>) returns (r: Thread, deleted: seq<string>, ghost gone: set<string>)
    requires Intact(t, parent, issued, removed) && id !in t.comments
    requires forall x :: x in replies ==> x in parent && parent[x] == id
    ensures Intact(r, parent, issued, removed + |gone|) && id !in r.comments
    ensures Lists(deleted, gone)
    ensures Removed(t.comments, r.comments, gone) && Under(parent, gone, id)
    ensures Dropped(t.tree, r.tree, gone)
    ensures forall i :: 0 <= i < |replies| ==> replies[i] !in r.comments
    decreases |t.comments| + 1, 0
  {
    r, deleted, gone := t, [], {};
    ListsNone();
    DroppedNone(t.tree, t.tree);
    var j := 0;
    while j < |replies|
      invariant j <= |replies|
      invariant Intact(r, parent, issued, removed + |gone|) && id !in r.comments
      invariant Lists(deleted, gone)
      invariant Removed(t.comments, r.comments, gone) && Under(parent, gone, id)
      invariant Dropped(t.tree, r.tree, gone)
      invariant forall i :: 0 <= i < j ==> replies[i] !in r.comments
      decreases |replies| - j
    {
      var next, d; ghost var g;
      next, d, g := Delete(r, parent, issued, removed + |gone|, replies[j]);
      DeletedConcat(t, r, next, parent, id, replies[j], deleted, d, gone, g);
      RepliesGone(r.comments, next.comments, g, replies, j);
      r, deleted, gone := next, deleted + d, gone + g;
      j := j + 1;
    }
  }

  // ---------------------------------------------------------------------
  // the thread

  class CommentThreadWidget {
    var comments: map<string, CommentData>
    var tree: Tree
    /** The keys of `_comment_tree`, in dictionary order. */
    var owners: seq<string>
    /** The laid-out comments, with their depth. */
    var shown: seq<(string, nat)>
    var countText: string
    /** The text in the "Write a comment..." box. */
    var formText: string
    var formShown: bool
    /** Ids handed out since the thread was created or cleared. */
    var issued: nat
    /** Comments deleted since then. */
    ghost var removed: nat
    /** The owner each id was listed under when it was added. */
    ghost var parent: map<string, string>

    ghost predicate Valid()
      reads this`comments, this`tree, this`owners, this`issued, this`removed, this`parent
    {
      Intact(Thread(comments, tree, owners), parent, issued, removed)
    }

    constructor()
      ensures Valid()
      ensures comments == map[] && tree == map[] && owners == [] && shown == []
      ensures countText == "0 comments" && formText == "" && formShown
    {
      comments := map[];
      tree := map[];
      owners := [];
      shown := [];
      countText := "0 comments";
      formText := "";
      formShown := true;
      issued := 0;
      removed := 0;
      parent := map[];
    }

    /**
     * Stores a new comment with the next free id and appends the id to the
     * list under `owner`, which is created, last in key order, if missing.
     */
    method Insert(data: CommentData, owner: string) returns (id: string)
      requires Valid()
      modifies this`comments, this`tree, this`owners, this`issued, this`parent
      ensures Valid()
      ensures id == NatToStr(old(issued)) && id !in old(comments)
      ensures old(removed) == 0 ==> id == IdAsWritten(old(comments))
      ensures comments == old(comments)[id := data]
      ensures tree == old(tree)[owner := Children(old(tree), owner) + [id]]
      ensures owners == if owner in old(tree) then old(owners) else old(owners) + [owner]
    {
      id := NatToStr(issued);
      var list := Children(tree, owner);
      AddKeeps(tree, comments, parent, issued, removed, data, owner);
      OrderPut(owners, tree, owner, list + [id]);
      if owner !in tree {
        owners := owners + [owner];
      }
      comments := comments[id := data];
      tree := tree[owner := list + [id]];
      parent := parent[id := owner];
      issued := issued + 1;
    }

    /** `_rebuild_comments_ui`: lays the thread out again from "root". */
    method RebuildCommentsUi()
      modifies this`shown
      ensures shown == Shown(tree, comments)
    {
      shown := Shown(tree, comments);
    }

    /** `_update_comment_count`. */
    method UpdateCommentCount()
      modifies this`countText
      ensures countText == CountText(|comments|)
    {
      countText := CountText(|comments|);
    }

    /** `add_comment`: returns the new id. */
    method AddComment(author: string, content: string, parentId: Option<string>,
                      timestamp: int, avatar: string) returns (id: string)
      requires Valid()
      modifies this`comments, this`tree, this`owners, this`shown, this`countText, this`issued, this`parent
      ensures Valid()
      ensures id == NatToStr(old(issued)) && id !in old(comments) && |comments| == |old(comments)| + 1
      ensures old(removed) == 0 ==> id == IdAsWritten(old(comments))
      ensures comments == old(comments)[id := CommentData(author, content, timestamp, avatar)]
      ensures var key := ParentKey(parentId);
              tree == old(tree)[key := Children(old(tree), key) + [id]]
      ensures shown == Shown(tree, comments) && countText == CountText(|comments|)
    {
      id := Insert(CommentData(author, content, timestamp, avatar), ParentKey(parentId));
      RebuildCommentsUi();
      UpdateCommentCount();
    }

    /** `add_comment` with the source's numbering, which can reuse a live id. */
    method AddCommentAsWritten(author: string, content: string, parentId: Option<string>,
                               timestamp: int, avatar: string) returns (id: string)
      modifies this`comments, this`tree, this`owners, this`shown, this`countText
      ensures id == IdAsWritten(old(comments))
      ensures comments == old(comments)[id := CommentData(author, content, timestamp, avatar)]
      ensures var key := ParentKey(parentId);
              tree == old(tree)[key := Children(old(tree), key) + [id]]
      ensures shown == Shown(tree, comments) && countText == CountText(|comments|)
    {
      id := IdAsWritten(comments);
      comments := comments[id := CommentData(author, content, timestamp, avatar)];
      var key := ParentKey(parentId);
      if key !in tree {
        owners := owners + [key];
      }
      tree := tree[key := Children(tree, key) + [id]];
      RebuildCommentsUi();
      UpdateCommentCount();
    }

    /** Typing into the comment box. */
    method TypeComment(text: string)
      modifies this`formText
      ensures formText == text
    {
      formText := text;
    }

    /**
     * Post Comment, as written: a blank text does nothing; otherwise the
     * stripped text becomes a top-level comment by "Current User" numbered
     * `str(len(comments))`, whatever comment has that id, the box is
     * cleared and `comment_added("root", content)` is emitted.
     */
    method PostComment(now: int) returns (emitted: Option<(string, string)>)
      modifies this`comments, this`tree, this`owners, this`shown, this`countText, this`formText
      ensures AllSpace(old(formText)) ==>
                emitted == None && comments == old(comments) && tree == old(tree) && formText == old(formText)
                && shown == old(shown) && countText == old(countText)
      ensures !AllSpace(old(formText)) ==>
                var content := Strip(old(formText));
                var id := IdAsWritten(old(comments));
                emitted == Some(("root", content)) && formText == ""
                && comments == old(comments)[id := CommentData("Current User", content, now, "")]
                && tree == old(tree)["root" := Children(old(tree), "root") + [id]]
                && shown == Shown(tree, comments) && countText == CountText(|comments|)
    {
      var content := Strip(formText);
      StripEmptyIff(formText);
      if content == "" {
        emitted := None;
        return;
      }
      formText := "";
      assert ParentKey(None) == "root";
      var id := AddCommentAsWritten("Current User", content, None, now, "");
      emitted := Some(("root", content));
    }

    /** Post Comment with the counter's numbering: a new comment never takes an id in use. */
    method PostCommentIntended(now: int) returns (emitted: Option<(string, string)>)
      requires Valid()
      modifies this`comments, this`tree, this`owners, this`shown, this`countText, this`issued, this`parent, this`formText
      ensures Valid()
      ensures AllSpace(old(formText)) ==>
                emitted == None && comments == old(comments) && tree == old(tree) && formText == old(formText)
                && shown == old(shown) && countText == old(countText) && issued == old(issued)
      ensures !AllSpace(old(formText)) ==>
                var content := Strip(old(formText));
                var id := NatToStr(old(issued));
                emitted == Some(("root", content)) && formText == ""
                && id !in old(comments)
                && comments == old(comments)[id := CommentData("Current User", content, now, "")]
                && tree == old(tree)["root" := Children(old(tree), "root") + [id]]
                && shown == Shown(tree, comments) && countText == CountText(|comments|)
    {
      var content := Strip(formText);
      StripEmptyIff(formText);
      if content == "" {
        emitted := None;
        return;
      }
      formText := "";
      assert ParentKey(None) == "root";
      var id := AddComment("Current User", content, None, now, "");
      emitted := Some(("root", content));
    }

    /** Cancel hides the comment box. */
    method CancelComment()
      modifies this`formShown
      ensures !formShown
    {
      formShown := false;
    }

    /**
     * Saving an edit of comment `id`: a non-blank text replaces its content
     * and emits `comment_edited(id, content)`.
     */
    method EditComment(id: string, draft: string) returns (emitted: Option<(string, string)>)
      requires Valid() && id in comments
      modifies this`comments
      ensures Valid()
      ensures comments == old(comments)[id := old(comments)[id].(content := SavedContent(old(comments)[id].content, draft))]
      ensures emitted.Some? <==> !AllSpace(draft)
      ensures emitted.Some? ==> emitted.value == (id, Strip(draft))
    {
      StripEmptyIff(draft);
      var content := SavedContent(comments[id].content, draft);
      EditKeeps(tree, comments, parent, issued, removed, id, comments[id].(content := content));
      comments := comments[id := comments[id].(content := content)];
      emitted := if AllSpace(draft) then None else Some((id, content));
    }

    /**
     * `_delete_comment` clicked on comment `id`: the comment and every reply
     * under it go, and the layout and the count are refreshed (the source
     * refreshes after each nested deletion as well; the last refresh is the
     * one that stays). An id that is not a comment changes nothing.
     */
    method DeleteComment(id: string) returns (deleted: seq<string>, ghost gone: set<string>)
      requires Valid()
      modifies this`comments, this`tree, this`owners, this`shown, this`countText, this`removed
      ensures Valid() && id !in comments && Lists(deleted, gone)
      ensures id !in old(comments) ==>
                deleted == [] && comments == old(comments) && tree == old(tree) && owners == old(owners)
                && shown == old(shown) && countText == old(countText)
      ensures id in old(comments) ==>
                deleted != [] && deleted[|deleted| - 1] == id
                && shown == Shown(tree, comments) && countText == CountText(|comments|)
      ensures Removed(old(comments), comments, gone) && Subtree(parent, gone, id)
      ensures Dropped(old(tree), tree, gone)
    {
      var r;
      r, deleted, gone := Delete(Thread(comments, tree, owners), parent, issued, removed, id);
      if id in comments {
        // `_rebuild_comments_ui` and `_update_comment_count`, on the new dictionaries
        var laidOut, count := Shown(r.tree, r.comments), CountText(|r.comments|);
        comments, tree, owners, shown, countText, removed :=
          r.comments, r.tree, r.owners, laidOut, count, removed + |gone|;
      }
    }

    /** `clear_comments`: both dictionaries emptied, numbering restarts. */
    method ClearComments()
      modifies this`comments, this`tree, this`owners, this`shown, this`countText, this`issued, this`removed
      ensures Valid()
      ensures comments == map[] && tree == map[] && owners == [] && shown == [] && countText == "0 comments"
    {
      // the two dictionaries emptied, then `_rebuild_comments_ui` and `_update_comment_count`
      var laidOut, count := Shown(map[], map[]), CountText(0);
      EmptyIntact(parent);
      comments, tree, owners, issued, removed, shown, countText := map[], map[], [], 0, 0, laidOut, count;
    }

    /** `get_comments_count`. */
    method GetCommentsCount() returns (n: nat)
      ensures n == |comments|
    {
      n := |comments|;
    }
  }
}
