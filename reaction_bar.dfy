/**
 * The reaction bar (`ReactionBarWidget`) and its variants: the like /
 * dislike bar without an add button (`SimpleReactionBar`), the bar that
 * animates a changed button (`AnimatedReactionBar`) and the compact bar
 * (`CompactReactionBar`).
 *
 * The counts are an insertion-ordered dictionary from emoji to count and
 * the user's own reactions a set. The bar's row of widgets is modelled as
 * a sequence of items, so that where `_create_reaction_button` inserts a
 * button is part of the model. A signal is modelled by the list of
 * signals a call emitted, in order.
 */
module ReactionBar {
  import opened Common

  /** The emojis `ReactionPicker` offers. */
  const PickerEmojis: seq<string> := ["👍", "👎", "❤️", "😂", "😮", "😢", "😡", "🎉", "👏", "🔥"]

  const Like := "👍"
  const Dislike := "👎"

  datatype Variant = Plain | Simple | Animated | Compact

  /** The widgets of the bar's row, in layout order. */
  datatype Item =
    | ReactionButton(emoji: string, text: string, highlighted: bool)
    | AddButton(text: string)
    | Stretch

  datatype Signal = Added(emoji: string) | Removed(emoji: string) | Clicked(emoji: string)

  /**
   * The reaction counts, a Python dictionary seen as its keys in insertion
   * order and its map from emoji to count, and the reactions of the
   * current user.
   */
  datatype Reactions = Reactions(keys: seq<string>, counts: map<string, int>, mine: set<string>)

  /** The key order lists exactly the dictionary's keys. */
  ghost predicate Keyed(s: Reactions) {
    forall k :: k in s.keys <==> k in s.counts
  }

  /** `self._reactions.get(emoji, 0)`. */
  function Count(counts: map<string, int>, e: string): (c: int)
    ensures e in counts ==> c == counts[e]
    ensures e !in counts ==> c == 0
  {
    if e in counts then counts[e] else 0
  }

  /** The key order without `e`. */
  function Without(keys: seq<string>, e: string): (r: seq<string>)
    ensures forall k :: k in r <==> k in keys && k != e
    ensures e !in keys ==> r == keys
  {
    if keys == [] then []
    else (if keys[0] == e then [] else [keys[0]]) + Without(keys[1..], e)
  }

  /** `d[e] = v`: a present key keeps its place, a new one goes last. */
  function Assign(s: Reactions, e: string, v: int): (r: Reactions)
    ensures r.keys == if e in s.counts then s.keys else s.keys + [e]
    ensures r.counts == s.counts[e := v] && r.mine == s.mine
    ensures Keyed(s) ==> Keyed(r)
  {
    Reactions(if e in s.counts then s.keys else s.keys + [e], s.counts[e := v], s.mine)
  }

  /** `del d[e]` / `d.pop(e, None)`: the key leaves the order and the map. */
  function Unassign(s: Reactions, e: string): (r: Reactions)
    ensures e !in r.counts && e !in r.keys && r.mine == s.mine
    ensures e !in s.counts && e !in s.keys ==> r == s
    ensures forall k :: k != e ==> (k in r.counts <==> k in s.counts) && Count(r.counts, k) == Count(s.counts, k)
    ensures Keyed(s) ==> Keyed(r)
  {
    Reactions(Without(s.keys, e), s.counts - {e}, s.mine)
  }

  // ---------------------------------------------------------------------
  // The reactions as values: what each operation does to the counts and
  // the user's set.

  /**
   * `_toggle_reaction`: a reaction of the user's is withdrawn (its count
   * goes down by one, but not below 0, and the key stays); otherwise it is
   * made (the count goes up by one, from 0 for a new emoji).
   */
  function Toggled(s: Reactions, e: string): (r: Reactions)
    ensures e in s.mine ==> r.mine == s.mine - {e}
    ensures e in s.mine ==> Count(r.counts, e) == (if Count(s.counts, e) - 1 < 0 then 0 else Count(s.counts, e) - 1)
    ensures e !in s.mine ==> r.mine == s.mine + {e} && Count(r.counts, e) == Count(s.counts, e) + 1
    ensures e in r.counts && r.keys == if e in s.counts then s.keys else s.keys + [e]
    ensures forall k :: k != e ==> (k in r.counts <==> k in s.counts) && Count(r.counts, k) == Count(s.counts, k)
    ensures Keyed(s) ==> Keyed(r)
  {
    var c := Count(s.counts, e);
    if e in s.mine then Assign(s, e, if c - 1 < 0 then 0 else c - 1).(mine := s.mine - {e})
    else Assign(s, e, c + 1).(mine := s.mine + {e})
  }

  /**
   * Toggling a reaction the user has not made, then toggling it again,
   * restores everything when the emoji had a key with a count that is not
   * negative; a new emoji is left behind with the count 0, last in the
   * order.
   */
  lemma ToggleTwice(s: Reactions, e: string)
    requires e !in s.mine && Count(s.counts, e) >= 0
    ensures e in s.counts ==> Toggled(Toggled(s, e), e) == s
    ensures e !in s.counts ==> Toggled(Toggled(s, e), e) == Reactions(s.keys + [e], s.counts[e := 0], s.mine)
  {
    var c := Count(s.counts, e);
    assert Toggled(Toggled(s, e), e).counts == s.counts[e := c + 1][e := c];
    assert s.counts[e := c + 1][e := c] == s.counts[e := c];
    if e in s.counts {
      assert s.counts[e := c] == s.counts;
    }
  }

  /** `_add_new_reaction`: the picker's emoji counts once more, unless the user already reacted with it. */
  function Picked(s: Reactions, e: string): (r: Reactions)
    ensures e in s.mine ==> r == s
    ensures e !in s.mine ==> r == Toggled(s, e)
    ensures e in r.mine && Keyed(s) ==> Keyed(r)
  {
    if e in s.mine then s else Toggled(s, e)
  }

  /** `add_reaction`: the count goes up by `n`, from 0 for a new emoji; the user's set is unchanged. */
  function AddedCount(s: Reactions, e: string, n: int): (r: Reactions)
    ensures r.mine == s.mine && Count(r.counts, e) == Count(s.counts, e) + n && e in r.counts
    ensures forall k :: k != e ==> (k in r.counts <==> k in s.counts) && Count(r.counts, k) == Count(s.counts, k)
    ensures Keyed(s) ==> Keyed(r)
  {
    Assign(s, e, Count(s.counts, e) + n)
  }

  /**
   * `remove_reaction`: an emoji without a key changes nothing; otherwise
   * its count goes down by `n`, but not below 0, and the key goes when the
   * count reaches 0.
   */
  function RemovedCount(s: Reactions, e: string, n: int): (r: Reactions)
    ensures r.mine == s.mine
    ensures e !in s.counts ==> r == s
    ensures e in s.counts ==>
      Count(r.counts, e) == (if Count(s.counts, e) - n < 0 then 0 else Count(s.counts, e) - n)
    ensures e in r.counts <==> e in s.counts && Count(s.counts, e) - n > 0
    ensures forall k :: k != e ==> (k in r.counts <==> k in s.counts) && Count(r.counts, k) == Count(s.counts, k)
    ensures Keyed(s) ==> Keyed(r)
  {
    if e !in s.counts then s
    else
      var c := s.counts[e] - n;
      if c <= 0 then Unassign(s, e) else Assign(s, e, c)
  }

  /** `set_user_reaction`: the emoji joins or leaves the user's set; the counts are unchanged. */
  function WithUser(s: Reactions, e: string, reacted: bool): (r: Reactions)
    ensures r.keys == s.keys && r.counts == s.counts
    ensures reacted ==> r.mine == s.mine + {e}
    ensures !reacted ==> r.mine == s.mine - {e}
  {
    s.(mine := if reacted then s.mine + {e} else s.mine - {e})
  }

  /**
   * `SimpleReactionBar.set_likes` / `set_dislikes`: a positive count is
   * stored, any other removes the key; the user's mark is set or cleared.
   */
  function WithCount(s: Reactions, e: string, n: int, reacted: bool): (r: Reactions)
    ensures n > 0 ==> Count(r.counts, e) == n && e in r.counts
    ensures n <= 0 ==> e !in r.counts && Count(r.counts, e) == 0
    ensures forall k :: k != e ==> (k in r.counts <==> k in s.counts) && Count(r.counts, k) == Count(s.counts, k)
    ensures (e in r.mine) == reacted && r.mine - {e} == s.mine - {e}
    ensures Keyed(s) ==> Keyed(r)
  {
    (if n > 0 then Assign(s, e, n) else Unassign(s, e)).(mine := if reacted then s.mine + {e} else s.mine - {e})
  }

  /** What `SimpleReactionBar(likes, dislikes, user_liked, user_disliked)` starts with: only positive counts get a key. */
  function SimpleStart(likes: int, dislikes: int, liked: bool, disliked: bool): (s: Reactions)
    ensures Keyed(s)
    ensures Like in s.counts <==> likes > 0
    ensures Dislike in s.counts <==> dislikes > 0
    ensures Count(s.counts, Like) == (if likes > 0 then likes else 0)
    ensures Count(s.counts, Dislike) == (if dislikes > 0 then dislikes else 0)
    ensures s.keys == (if likes > 0 then [Like] else []) + (if dislikes > 0 then [Dislike] else [])
    ensures s.mine == (if liked then {Like} else {}) + (if disliked then {Dislike} else {})
  {
    var s0 := Reactions([], map[], (if liked then {Like} else {}) + (if disliked then {Dislike} else {}));
    var s1 := if likes > 0 then Assign(s0, Like, likes) else s0;
    if dislikes > 0 then Assign(s1, Dislike, dislikes) else s1
  }

  // ---------------------------------------------------------------------
  // The row of widgets.

  /** The text of a reaction button: emoji and count, with a space except in the compact bar. */
  function ButtonText(e: string, c: int, compact: bool): (t: string)
    ensures compact ==> t == e + IntToStr(c)
    ensures !compact ==> t == e + " " + IntToStr(c)
  {
    if compact then e + IntToStr(c) else e + " " + IntToStr(c)
  }

  /** The button `_create_reaction_button` makes: highlighted iff the user reacted with the emoji. */
  function Button(e: string, c: int, mine: set<string>, compact: bool): (b: Item)
    ensures b.ReactionButton? && b.emoji == e && b.text == ButtonText(e, c, compact)
    ensures b.highlighted <==> e in mine
  {
    ReactionButton(e, ButtonText(e, c, compact), e in mine)
  }

  /** `layout.insertWidget(i, x)`. */
  function InsertAt(row: seq<Item>, i: nat, x: Item): (r: seq<Item>)
    requires i <= |row|
    ensures |r| == |row| + 1 && r[i] == x
  {
    row[..i] + [x] + row[i..]
  }

  /** `max(0, layout.count() - 2)`: the slot before the last two items, or the front. */
  function Slot(n: nat): (i: nat)
    ensures i <= n
    ensures n >= 2 ==> i == n - 2
    ensures n < 2 ==> i == 0
  {
    if n < 2 then 0 else n - 2
  }

  /**
   * The row after `_update_reactions_display` added the buttons, starting
   * from `row`: each key with a positive count, in key order, gets a
   * button inserted at the slot before the row's last two items.
   */
  function Filled(row: seq<Item>, keys: seq<string>, s: Reactions, compact: bool): (r: seq<Item>)
    ensures |r| >= |row|
    decreases |keys|
  {
    if keys == [] then row
    else
      var before := Filled(row, keys[..|keys| - 1], s, compact);
      var e := keys[|keys| - 1];
      var c := Count(s.counts, e);
      if c > 0 then InsertAt(before, Slot(|before|), Button(e, c, s.mine, compact)) else before
  }

  /** The buttons for the keys with a positive count, in key order. */
  function Buttons(keys: seq<string>, s: Reactions, compact: bool): (r: seq<Item>)
    ensures |r| <= |keys|
    decreases |keys|
  {
    if keys == [] then []
    else
      var e := keys[|keys| - 1];
      var c := Count(s.counts, e);
      Buttons(keys[..|keys| - 1], s, compact) + (if c > 0 then [Button(e, c, s.mine, compact)] else [])
  }

  /** The emojis of the row's reaction buttons, in row order. */
  function Emojis(r: seq<Item>): (es: seq<string>)
    ensures |es| <= |r|
  {
    if r == [] then []
    else Emojis(r[..|r| - 1]) + (if r[|r| - 1].ReactionButton? then [r[|r| - 1].emoji] else [])
  }

  /** The row without its reaction buttons: what `setParent(None)` on each button leaves. */
  function Unbuttoned(row: seq<Item>): (r: seq<Item>)
    ensures |r| <= |row|
  {
    if row == [] then []
    else (if row[0].ReactionButton? then [] else [row[0]]) + Unbuttoned(row[1..])
  }

  lemma {:induction false} UnbuttonedAppend(a: seq<Item>, b: seq<Item>)
    ensures Unbuttoned(a + b) == Unbuttoned(a) + Unbuttoned(b)
  {
    if a == [] {
      assert a + b == b;
    } else {
      assert (a + b)[0] == a[0];
      assert (a + b)[1..] == a[1..] + b;
      UnbuttonedAppend(a[1..], b);
    }
  }

  lemma SplitInsert(row: seq<Item>, i: nat, x: Item)
    requires i <= |row|
    ensures InsertAt(row, i, x) == row[..i] + ([x] + row[i..])
    ensures row == row[..i] + row[i..]
  {
  }

  lemma UnbuttonedInsert(row: seq<Item>, i: nat, x: Item)
    requires i <= |row| && x.ReactionButton?
    ensures Unbuttoned(InsertAt(row, i, x)) == Unbuttoned(row)
  {
    SplitInsert(row, i, x);
    UnbuttonedAppend(row[..i], [x] + row[i..]);
    UnbuttonedAppend([x], row[i..]);
    UnbuttonedButton(x);
    UnbuttonedAppend(row[..i], row[i..]);
  }

  lemma UnbuttonedButton(x: Item)
    requires x.ReactionButton?
    ensures Unbuttoned([x]) == []
  {
    assert [x][1..] == [];
  }

  /** Filling only adds buttons: the fixed items of the row stay, in order. */
  lemma {:induction false} FilledKeepsFixed(row: seq<Item>, keys: seq<string>, s: Reactions, compact: bool)
    ensures Unbuttoned(Filled(row, keys, s, compact)) == Unbuttoned(row)
    decreases |keys|
  {
    if keys != [] {
      var before := Filled(row, keys[..|keys| - 1], s, compact);
      FilledKeepsFixed(row, keys[..|keys| - 1], s, compact);
      var e := keys[|keys| - 1];
      var c := Count(s.counts, e);
      if c > 0 {
        UnbuttonedInsert(before, Slot(|before|), Button(e, c, s.mine, compact));
      }
    }
  }

  /**
   * Once the row ends with exactly two fixed items (the add button and the
   * stretch of a bar that has been built), every refresh lays the buttons
   * out in key order before them.
   */
  lemma {:induction false} FilledInOrder(fixed: seq<Item>, keys: seq<string>, s: Reactions, compact: bool)
    requires |fixed| == 2
    ensures Filled(fixed, keys, s, compact) == Buttons(keys, s, compact) + fixed
    decreases |keys|
  {
    if keys != [] {
      var p := keys[..|keys| - 1];
      FilledInOrder(fixed, p, s, compact);
      var before := Filled(fixed, p, s, compact);
      var e := keys[|keys| - 1];
      var c := Count(s.counts, e);
      if c > 0 {
        var b := Button(e, c, s.mine, compact);
        var bs := Buttons(p, s, compact);
        assert Slot(|before|) == |bs|;
        assert before[..|bs|] == bs && before[|bs|..] == fixed;
        assert InsertAt(before, |bs|, b) == (bs + [b]) + fixed;
      }
    }
  }

  /** Exactly the keys with a positive count have a button. */
  lemma {:induction false} ButtonsShowPositive(keys: seq<string>, s: Reactions, compact: bool, e: string)
    ensures e in Emojis(Buttons(keys, s, compact)) <==> e in keys && Count(s.counts, e) > 0
    decreases |keys|
  {
    if keys != [] {
      var p := keys[..|keys| - 1];
      var x := keys[|keys| - 1];
      assert keys == p + [x];
      ButtonsShowPositive(p, s, compact, e);
      var bs := Buttons(p, s, compact);
      var c := Count(s.counts, x);
      if c > 0 {
        var b := Button(x, c, s.mine, compact);
        assert (bs + [b])[..|bs|] == bs;
        assert Emojis(bs + [b]) == Emojis(bs) + [x];
      } else {
        assert bs + [] == bs;
      }
    }
  }

  // ---------------------------------------------------------------------
  // The findings about the insertion slot.

  /**
   * As written: the first display runs before the add button and the
   * stretch exist, so the slot is the front for the first two buttons and
   * two positive reactions appear in reverse order.
   */
  lemma FirstDisplayReversed()
    ensures Filled([], ["a", "b"], Reactions(["a", "b"], map["a" := 1, "b" := 1], {}), false)
      == [Button("b", 1, {}, false), Button("a", 1, {}, false)]
  {
    var keys := ["a", "b"];
    assert keys[..1] == ["a"];
    assert keys[..1][..0] == [];
  }

  /**
   * As written: a simple bar has only the stretch after its buttons, so
   * every refresh puts a dislike button before the like button.
   */
  lemma SimpleBarReversed()
    ensures Filled([Stretch], [Like, Dislike], SimpleStart(1, 1, false, false), false)
      == [Button(Dislike, 1, {}, false), Button(Like, 1, {}, false), Stretch]
  {
    var keys := [Like, Dislike];
    var s := SimpleStart(1, 1, false, false);
    assert keys[..1] == [Like];
    assert keys[..1][..0] == [];
    assert [Like][..0] == [];
    assert Filled([Stretch], [], s, false) == [Stretch];
    var one := Filled([Stretch], [Like], s, false);
    assert one == InsertAt([Stretch], 0, Button(Like, 1, {}, false));
    assert one == [Button(Like, 1, {}, false), Stretch];
    assert InsertAt(one, 0, Button(Dislike, 1, {}, false)) == [Button(Dislike, 1, {}, false)] + one;
  }

  /** The fixed items each bar keeps after its buttons. */
  function Fixed(v: Variant): (r: seq<Item>)
    ensures Unbuttoned(r) == r
    ensures v == Simple ==> r == [Stretch]
    ensures v != Simple ==> |r| == 2 && r[1] == Stretch && r[0].AddButton?
  {
    match v
    case Simple => [Stretch]
    case Compact => [AddButton("+"), Stretch]
    case _ => [AddButton("😊+"), Stretch]
  }

  /** A freshly built bar holds its fixed items after the buttons of the first display. */
  lemma BuiltValid(s: Reactions, v: Variant)
    ensures Unbuttoned(Filled([], s.keys, s, v == Compact) + Fixed(v)) == Fixed(v)
  {
    FilledKeepsFixed([], s.keys, s, v == Compact);
    UnbuttonedAppend(Filled([], s.keys, s, v == Compact), Fixed(v));
  }

  class ReactionBarWidget {
    var state: Reactions
    var row: seq<Item>
    const variant: Variant

    /** The key order lists the dictionary's keys, and the row holds the bar's fixed items between its buttons. */
    ghost predicate Valid()
      reads this
    {
      Keyed(state) && Unbuttoned(row) == Fixed(variant)
    }

    /** The row a refresh of the current state leaves. */
    ghost function Shown(): seq<Item>
      reads this
    {
      Filled(Fixed(variant), state.keys, state, variant == Compact)
    }

    /**
     * `ReactionBarWidget(reactions, user_reactions)` and the animated and
     * compact variants: the first display fills an empty row, then the add
     * button and the stretch follow.
     */
    constructor (s: Reactions, v: Variant)
      requires Keyed(s) && v != Variant.Simple
      ensures Valid() && variant == v && state == s
      ensures row == Filled([], s.keys, s, v == Compact) + Fixed(v)
    {
      state, variant, row := s, v, [];
      new;
      UpdateDisplay();
      row := row + Fixed(v);
      BuiltValid(s, v);
    }

    /** `SimpleReactionBar(likes, dislikes, user_liked, user_disliked)`: no add button, only the stretch. */
    constructor SimpleBar(likes: int, dislikes: int, liked: bool, disliked: bool)
      ensures Valid() && variant == Variant.Simple && state == SimpleStart(likes, dislikes, liked, disliked)
      ensures row == Filled([], state.keys, state, false) + [Stretch]
    {
      state := SimpleStart(likes, dislikes, liked, disliked);
      variant, row := Variant.Simple, [];
      new;
      UpdateDisplay();
      row := row + [Stretch];
      BuiltValid(state, Variant.Simple);
    }

    /**
     * `_update_reactions_display`: every reaction button leaves the row,
     * then each key with a positive count gets a button, in key order,
     * inserted at the slot before the row's last two items.
     */
    method UpdateDisplay()
      modifies this`row
      ensures row == Filled(Unbuttoned(old(row)), state.keys, state, variant == Compact)
    {
      var start := Unbuttoned(row);
      var r := start;
      var keys := state.keys;
      var i := 0;
      while i < |keys|
        invariant 0 <= i <= |keys|
        invariant r == Filled(start, keys[..i], state, variant == Compact)
      {
        var e := keys[i];
        assert keys[..i + 1][..i] == keys[..i];
        if e in state.counts && state.counts[e] > 0 {
          r := InsertAt(r, Slot(|r|), Button(e, state.counts[e], state.mine, variant == Compact));
        }
        i := i + 1;
      }
      assert keys[..i] == keys;
      row := r;
    }

    /**
     * The corrected refresh: the buttons go, in key order, before whatever
     * fixed items the row has, so the first display and the simple bar show
     * the same order as every later refresh.
     */
    method UpdateDisplayIntended()
      modifies this`row
      ensures row == Buttons(state.keys, state, variant == Compact) + Unbuttoned(old(row))
      ensures forall e :: e in Emojis(Buttons(state.keys, state, variant == Compact)) <==>
        e in state.keys && Count(state.counts, e) > 0
    {
      row := Buttons(state.keys, state, variant == Compact) + Unbuttoned(row);
      forall e | true
        ensures e in Emojis(Buttons(state.keys, state, variant == Compact)) <==>
          e in state.keys && Count(state.counts, e) > 0
      {
        ButtonsShowPositive(state.keys, state, variant == Compact, e);
      }
    }

    /**
     * A refresh of a built bar: for every bar but the simple one the
     * buttons of the positive counts stand in key order before the add
     * button and the stretch.
     */
    method Refresh()
      requires Keyed(state) && Unbuttoned(row) == Fixed(variant)
      modifies this`row
      ensures Valid() && row == Shown()
      ensures variant != Variant.Simple ==> row == Buttons(state.keys, state, variant == Compact) + Fixed(variant)
    {
      UpdateDisplay();
      FilledKeepsFixed(Fixed(variant), state.keys, state, variant == Compact);
      if variant != Variant.Simple {
        FilledInOrder(Fixed(variant), state.keys, state, variant == Compact);
      }
    }

    /**
     * A reaction button's click (`_toggle_reaction`): the reaction is
     * withdrawn or made, `reaction_removed` or `reaction_added` is emitted,
     * the row refreshed, then `reaction_clicked`. The animated bar animates
     * the button when the count changed and the emoji still has a button.
     */
    method Toggle(e: string) returns (emitted: seq<Signal>, animated: bool)
      requires Valid()
      modifies this`state, this`row
      ensures Valid() && state == Toggled(old(state), e) && row == Shown()
      ensures e in old(state).mine ==> emitted == [Removed(e), Clicked(e)]
      ensures e !in old(state).mine ==> emitted == [Added(e), Clicked(e)]
      ensures animated <==> (variant == Animated && Count(state.counts, e) != Count(old(state).counts, e)
        && Count(state.counts, e) > 0)
    {
      var before := Count(state.counts, e);
      emitted := if e in state.mine then [Removed(e)] else [Added(e)];
      state := Toggled(state, e);
      Refresh();
      emitted := emitted + [Clicked(e)];
      var after := Count(state.counts, e);
      animated := variant == Animated && after != before && after > 0;
    }

    /** `_add_new_reaction`: the picker's emoji counts once, then the row refreshes and `reaction_added` fires. */
    method Pick(e: string) returns (emitted: seq<Signal>)
      requires Valid()
      modifies this`state, this`row
      ensures Valid() && state == Picked(old(state), e)
      ensures e in old(state).mine ==> emitted == [] && row == old(row)
      ensures e !in old(state).mine ==> emitted == [Added(e)] && row == Shown()
    {
      emitted := [];
      if e !in state.mine {
        state := Toggled(state, e);
        Refresh();
        emitted := [Added(e)];
      }
    }

    /** `add_reaction(emoji, count)`. */
    method AddReaction(e: string, n: int)
      requires Valid()
      modifies this`state, this`row
      ensures Valid() && state == AddedCount(old(state), e, n) && row == Shown()
    {
      state := AddedCount(state, e, n);
      Refresh();
    }

    /** `remove_reaction(emoji, count)`: an emoji without a key changes nothing, not even the row. */
    method RemoveReaction(e: string, n: int)
      requires Valid()
      modifies this`state, this`row
      ensures Valid() && state == RemovedCount(old(state), e, n)
      ensures e !in old(state).counts ==> row == old(row)
      ensures e in old(state).counts ==> row == Shown()
    {
      if e in state.counts {
        state := RemovedCount(state, e, n);
        Refresh();
      }
    }

    /** `set_user_reaction(emoji, reacted)`. */
    method SetUserReaction(e: string, reacted: bool)
      requires Valid()
      modifies this`state, this`row
      ensures Valid() && state == WithUser(old(state), e, reacted) && row == Shown()
    {
      state := WithUser(state, e, reacted);
      Refresh();
    }

    /** `clear_reactions`: no counts, no reactions of the user's, no buttons. */
    method ClearReactions()
      requires Valid()
      modifies this`state, this`row
      ensures Valid() && state == Reactions([], map[], {}) && row == Fixed(variant)
    {
      state := Reactions([], map[], {});
      Refresh();
    }

    /** `SimpleReactionBar.set_likes(likes, user_liked)`. */
    method SetLikes(likes: int, liked: bool)
      requires Valid()
      modifies this`state, this`row
      ensures Valid() && state == WithCount(old(state), Like, likes, liked) && row == Shown()
    {
      state := WithCount(state, Like, likes, liked);
      Refresh();
    }

    /** `SimpleReactionBar.set_dislikes(dislikes, user_disliked)`. */
    method SetDislikes(dislikes: int, disliked: bool)
      requires Valid()
      modifies this`state, this`row
      ensures Valid() && state == WithCount(old(state), Dislike, dislikes, disliked) && row == Shown()
    {
      state := WithCount(state, Dislike, dislikes, disliked);
      Refresh();
    }
  }
}
