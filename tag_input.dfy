/**
 * A tag input: a row of removable chips, one per tag, in front of a text
 * field with a drop-down of suggestions. Tags are distinct and non-empty;
 * an optional maximum caps their number, where a maximum of 0 or None
 * means no limit. Chips are kept in a dictionary from tag to chip.
 *
 * The coloured variant is this widget with colours registered per tag (the
 * plain widget is the case with none registered); the compact variant is
 * this widget capped at five tags. The line edit's own text editing is not
 * modelled: typed text arrives through `OnTextChanged`.
 */
module TagInput {
  import opened Common
  import opened PyDict

  /** A chip: its text, whether it has a remove button, and a background colour when one is registered. */
  datatype Chip = Chip(text: string, removable: bool, color: Option<string>)

  /** The chip `add_tag` makes for a tag, coloured when the tag has a colour. */
  function ChipFor(t: string, colors: map<string, string>): Chip {
    Chip(t, true, if t in colors then Some(colors[t]) else None)
  }

  /** Python truthiness of the maximum: present and not zero. */
  predicate Limited(max: Option<int>) {
    max.Some? && max.value != 0
  }

  /** `add_tag`'s checks: a non-empty new tag, and room below a truthy maximum. */
  predicate CanAdd(tags: seq<string>, t: string, max: Option<int>) {
    t != "" && t !in tags && !(Limited(max) && |tags| >= max.value)
  }

  function AddedTags(tags: seq<string>, t: string, max: Option<int>): seq<string> {
    if CanAdd(tags, t, max) then tags + [t] else tags
  }

  /** What the field shows when empty: a prompt for more once there are tags. */
  function PlaceholderFor(tags: seq<string>, placeholder: string): string {
    if tags != [] then "Add more tags..." else placeholder
  }

  /** A positive maximum bounds the number of tags. */
  predicate WithinMax(tags: seq<string>, max: Option<int>) {
    Limited(max) && max.value > 0 ==> |tags| <= max.value
  }

  /** Adding keeps the tags distinct, non-empty and within a positive maximum, and appends only an accepted tag. */
  lemma AddedTagsKeeps(tags: seq<string>, t: string, max: Option<int>)
    requires Distinct(tags) && "" !in tags && WithinMax(tags, max)
    ensures var r := AddedTags(tags, t, max);
      Distinct(r) && "" !in r && WithinMax(r, max)
      && (forall x :: x in r <==> x in tags || (x == t && CanAdd(tags, t, max)))
  {
    if CanAdd(tags, t, max) {
      AppendDistinct(tags, t);
    }
  }

  lemma AppendDistinct<T>(s: seq<T>, x: T)
    requires Distinct(s) && x !in s
    ensures Distinct(s + [x])
  {
    var r := s + [x];
    forall i, j | 0 <= i < j < |r|
      ensures r[i] != r[j]
    {
      if j == |s| {
        assert r[i] == s[i];
      }
    }
  }

  /** A tag added and then removed leaves the tags as they were. */
  lemma AddThenRemoveTag(tags: seq<string>, t: string, max: Option<int>)
    requires CanAdd(tags, t, max)
    ensures RemoveFirst(AddedTags(tags, t, max), t) == tags
  {
    RemoveFirstAfter(tags, t);
  }

  /** Removing a tag keeps the others in their order and distinct. */
  lemma RemoveTagKeepsOrder(tags: seq<string>, t: string)
    requires Distinct(tags) && t in tags
    ensures RemoveFirst(tags, t) == tags[..IndexOf(tags, t)] + tags[IndexOf(tags, t) + 1..]
    ensures Distinct(RemoveFirst(tags, t)) && forall x :: x in RemoveFirst(tags, t) <==> x in tags && x != t
  {
    RemoveFirstSlices(tags, t);
    RemoveFirstDistinct(tags, t);
  }

  /** Removing the last of distinct tags drops the last position. */
  lemma RemoveLastTag(tags: seq<string>)
    requires Distinct(tags) && tags != []
    ensures RemoveFirst(tags, tags[|tags| - 1]) == tags[..|tags| - 1]
  {
    var n := |tags| - 1;
    LastNotInFront(tags);
    RemoveFirstAfter(tags[..n], tags[n]);
    assert tags[..n] + [tags[n]] == tags;
  }

  lemma LastNotInFront<T>(s: seq<T>)
    requires Distinct(s) && s != []
    ensures s[|s| - 1] !in s[..|s| - 1]
  {
    var n := |s| - 1;
    forall k | 0 <= k < n
      ensures s[..n][k] != s[n]
    {
      assert s[..n][k] == s[k];
    }
  }

  // ---------------------------------------------------------------------
  // set_tags

  /** The tags after `set_tags(ts)`: each tag offered in turn to `add_tag`, starting from none. */
  function Collected(ts: seq<string>, max: Option<int>): seq<string>
    decreases |ts|
  {
    if ts == [] then [] else AddedTags(Collected(ts[..|ts| - 1], max), ts[|ts| - 1], max)
  }

  /** The non-empty entries of `ts` at their first occurrence, in order. */
  function FirstOccurrences(ts: seq<string>): seq<string>
    decreases |ts|
  {
    if ts == [] then []
    else
      var p, x := ts[..|ts| - 1], ts[|ts| - 1];
      FirstOccurrences(p) + (if x != "" && x !in p then [x] else [])
  }

  lemma {:induction false} FirstOccurrencesSpec(ts: seq<string>)
    ensures Distinct(FirstOccurrences(ts)) && "" !in FirstOccurrences(ts)
    ensures forall x :: x in FirstOccurrences(ts) <==> x in ts && x != ""
  {
    if ts != [] {
      var p, x := ts[..|ts| - 1], ts[|ts| - 1];
      FirstOccurrencesSpec(p);
      assert ts == p + [x];
      if x != "" && x !in p {
        AppendDistinct(FirstOccurrences(p), x);
      }
    }
  }

  /** `max_tags` applied to a list: unchanged without a limit, empty for a negative one, else its first `max` entries. */
  function Capped(s: seq<string>, max: Option<int>): seq<string> {
    if !Limited(max) then s
    else if max.value < 0 then []
    else PyTake(s, max.value)
  }

  /** `set_tags` keeps the distinct non-empty tags given, in first-occurrence order, up to the maximum. */
  lemma {:induction false} CollectedIsCappedFirstOccurrences(ts: seq<string>, max: Option<int>)
    ensures Collected(ts, max) == Capped(FirstOccurrences(ts), max)
  {
    if ts != [] {
      var p, x := ts[..|ts| - 1], ts[|ts| - 1];
      CollectedIsCappedFirstOccurrences(p, max);
      FirstOccurrencesSpec(p);
      CollectedStep(p, x, max);
    }
  }

  lemma CollectedStep(p: seq<string>, x: string, max: Option<int>)
    requires Collected(p, max) == Capped(FirstOccurrences(p), max)
    requires forall y :: y in FirstOccurrences(p) <==> y in p && y != ""
    ensures Collected(p + [x], max) == Capped(FirstOccurrences(p + [x]), max)
  {
    var ts := p + [x];
    assert ts[..|ts| - 1] == p && ts[|ts| - 1] == x;
    var f := FirstOccurrences(p);
    assert Collected(ts, max) == AddedTags(Collected(p, max), x, max);
    assert FirstOccurrences(ts) == f + (if x != "" && x !in p then [x] else []);
    if Limited(max) && max.value > 0 {
      TakeShort(f, max.value);
      TakeAppend(f, x, max.value);
    }
  }

  lemma TakeShort<T>(f: seq<T>, m: nat)
    ensures |f| <= m ==> PyTake(f, m) == f
    ensures |PyTake(f, m)| == if |f| < m then |f| else m
  {
  }

  lemma TakeAppend<T>(f: seq<T>, x: T, m: nat)
    ensures PyTake(f + [x], m) == if |f| < m then f + [x] else PyTake(f, m)
  {
    if |f| >= m {
      assert (f + [x])[..m] == f[..m];
    }
  }

  // ---------------------------------------------------------------------
  // suggestions

  /** `_show_suggestions`' filter: suggestions containing the query, ignoring case, that are not tags yet. */
  function MatchingSuggestions(suggestions: seq<string>, query: string, tags: seq<string>): (r: seq<string>)
    ensures |r| <= |suggestions|
  {
    if suggestions == [] then []
    else
      var s := suggestions[0];
      (if Contains(Lower(s), Lower(query)) && s !in tags then [s] else [])
      + MatchingSuggestions(suggestions[1..], query, tags)
  }

  lemma {:induction false} MatchingSuggestionsSpec(suggestions: seq<string>, query: string, tags: seq<string>)
    ensures forall s :: s in MatchingSuggestions(suggestions, query, tags) <==>
              s in suggestions && Contains(Lower(s), Lower(query)) && s !in tags
  {
    if suggestions != [] {
      MatchingSuggestionsSpec(suggestions[1..], query, tags);
      HeadTail(suggestions);
    }
  }

  /** The drop-down shows at most this many suggestions. */
  const MaxShownSuggestions := 10

  datatype Key = Backspace | Down | Comma | Semicolon | Escape | OtherKey

  class TagInputWidget {
    const placeholder: string
    var suggestions: seq<string>
    var maxTags: Option<int>
    var tags: seq<string>
    var chips: map<string, Chip>
    /** Colours registered for tags; empty unless the widget is the coloured variant. */
    var tagColors: map<string, string>
    var placeholderShown: string
    var inputText: string
    var listItems: seq<string>
    var listVisible: bool

    /** Everything but the maximum: distinct non-empty tags, one chip per tag, the placeholder in step. */
    ghost predicate ValidTags()
      reads this
    {
      Distinct(tags) && "" !in tags
      && (forall t :: t in chips <==> t in tags)
      && (forall t :: t in chips ==> chips[t] == ChipFor(t, tagColors))
      && placeholderShown == PlaceholderFor(tags, placeholder)
    }

    ghost predicate Valid()
      reads this
    {
      ValidTags() && WithinMax(tags, maxTags)
    }

    constructor (placeholder0: string, suggestions0: seq<string>, maxTags0: Option<int>)
      ensures Valid() && placeholder == placeholder0 && suggestions == suggestions0 && maxTags == maxTags0
      ensures tags == [] && chips == map[] && tagColors == map[] && placeholderShown == placeholder0
      ensures inputText == "" && listItems == [] && !listVisible
    {
      placeholder, suggestions, maxTags := placeholder0, suggestions0, maxTags0;
      tags, chips, tagColors := [], map[], map[];
      placeholderShown, inputText := placeholder0, "";
      listItems, listVisible := [], false;
    }

    /** `CompactTagInput`: "Tags..." and at most five tags. */
    constructor Compact()
      ensures Valid() && placeholder == "Tags..." && suggestions == [] && maxTags == Some(5)
      ensures tags == [] && chips == map[] && tagColors == map[] && placeholderShown == "Tags..."
      ensures inputText == "" && listItems == [] && !listVisible
    {
      placeholder, suggestions, maxTags := "Tags...", [], Some(5);
      tags, chips, tagColors := [], map[], map[];
      placeholderShown, inputText := "Tags...", "";
      listItems, listVisible := [], false;
    }

    /** `ColoredTagInput`: no limit, with a colour per tag. */
    constructor Colored(colors: map<string, string>)
      ensures Valid() && placeholder == "Add tags..." && suggestions == [] && maxTags == None
      ensures tags == [] && chips == map[] && tagColors == colors && placeholderShown == "Add tags..."
      ensures inputText == "" && listItems == [] && !listVisible
    {
      placeholder, suggestions, maxTags := "Add tags...", [], None;
      tags, chips, tagColors := [], map[], colors;
      placeholderShown, inputText := "Add tags...", "";
      listItems, listVisible := [], false;
    }

    /** `add_tag`: an accepted tag is appended with its chip; `tag_added` and `tags_changed` fire only then. */
    method AddTag(t: string) returns (added: bool)
      requires Valid()
      modifies this`tags, this`chips, this`placeholderShown
      ensures Valid()
      ensures added == CanAdd(old(tags), t, maxTags)
      ensures tags == AddedTags(old(tags), t, maxTags)
      ensures chips == if added then old(chips)[t := ChipFor(t, tagColors)] else old(chips)
    {
      AddedTagsKeeps(tags, t, maxTags);
      added := CanAdd(tags, t, maxTags);
      if added {
        tags := tags + [t];
        chips := chips[t := ChipFor(t, tagColors)];
        placeholderShown := PlaceholderFor(tags, placeholder);
      }
    }

    /** `remove_tag`: a present tag goes with its chip; `tag_removed` and `tags_changed` fire only then. */
    method RemoveTag(t: string) returns (removed: bool)
      requires ValidTags()
      modifies this`tags, this`chips, this`placeholderShown
      ensures ValidTags() && |tags| <= |old(tags)|
      ensures removed == (t in old(tags))
      ensures tags == RemoveFirst(old(tags), t)
      ensures chips == old(chips) - {t}
    {
      removed := t in tags;
      if removed {
        RemoveFirstDistinct(tags, t);
        RemoveFirstMultiset(tags, t);
        tags := RemoveFirst(tags, t);
        chips := chips - {t};
        placeholderShown := PlaceholderFor(tags, placeholder);
      }
    }

    /** `clear_tags`: removes each tag of a copy of the list in turn. */
    method ClearTags()
      requires Valid()
      modifies this`tags, this`chips, this`placeholderShown
      ensures Valid() && tags == [] && chips == map[] && placeholderShown == placeholder
    {
      var copy := tags;
      var i := 0;
      while i < |copy|
        invariant 0 <= i <= |copy| && Valid()
        invariant tags == copy[i..]
      {
        assert copy[i..] == [copy[i]] + copy[i + 1..];
        var _ := RemoveTag(copy[i]);
        i := i + 1;
      }
      assert chips == map[] by {
        assert forall t :: t !in chips;
      }
    }

    /** `set_tags`: clears, then offers each given tag to `add_tag` in order. */
    method SetTags(ts: seq<string>)
      requires Valid()
      modifies this`tags, this`chips, this`placeholderShown
      ensures Valid() && tags == Collected(ts, maxTags)
    {
      ClearTags();
      var i := 0;
      while i < |ts|
        invariant 0 <= i <= |ts| && Valid()
        invariant tags == Collected(ts[..i], maxTags)
      {
        assert ts[..i + 1][..i] == ts[..i];
        var _ := AddTag(ts[i]);
        i := i + 1;
      }
      assert ts[..i] == ts;
    }

    method GetTags() returns (r: seq<string>)
      ensures r == tags
    {
      r := tags;
    }

    method SetSuggestions(s: seq<string>)
      modifies this`suggestions
      ensures suggestions == s
    {
      suggestions := s;
    }

    /** `set_max_tags`: a truthy maximum below the count drops the tags `tags[max:]`, so the first ones stay. */
    method SetMaxTags(m: Option<int>)
      requires Valid()
      modifies this`maxTags, this`tags, this`chips, this`placeholderShown
      ensures Valid() && maxTags == m
      ensures tags == if Limited(m) && |old(tags)| > m.value then PyTake(old(tags), m.value) else old(tags)
    {
      maxTags := m;
      if Limited(m) && |tags| > m.value {
        var excess := PyDrop(tags, m.value);
        TakeDropSplit(tags, m.value);
        RemoveTrailing(PyTake(tags, m.value), excess);
      }
    }

    /** The loop of `set_max_tags`: removes the tags that follow `kept`, one by one. */
    method RemoveTrailing(ghost kept: seq<string>, excess: seq<string>)
      requires ValidTags() && tags == kept + excess
      modifies this`tags, this`chips, this`placeholderShown
      ensures ValidTags() && tags == kept
    {
      var i := 0;
      while i < |excess|
        invariant 0 <= i <= |excess| && ValidTags()
        invariant tags == kept + excess[i..]
      {
        DropNext(kept, excess, i);
        var _ := RemoveTag(excess[i]);
        i := i + 1;
      }
      assert excess[i..] == [];
      assert tags == kept + [];
    }

    /** `_on_text_changed`: a non-empty text with suggestions available shows the matches; otherwise the list hides. */
    method OnTextChanged(text: string)
      modifies this`inputText, this`listItems, this`listVisible
      ensures inputText == text
      ensures !(text != "" && suggestions != []) ==> !listVisible && listItems == old(listItems)
      ensures text != "" && suggestions != [] ==>
                var found := MatchingSuggestions(suggestions, text, tags);
                listVisible == (found != []) && listItems == if found != [] then PyTake(found, MaxShownSuggestions) else old(listItems)
    {
      inputText := text;
      if text != "" && suggestions != [] {
        ShowSuggestions(text);
      } else {
        listVisible := false;
      }
    }

    /** `_show_suggestions`: up to ten matches replace the list, which shows; with no match it only hides. */
    method ShowSuggestions(query: string)
      modifies this`listItems, this`listVisible
      ensures var found := MatchingSuggestions(suggestions, query, tags);
        listVisible == (found != []) && listItems == if found != [] then PyTake(found, MaxShownSuggestions) else old(listItems)
    {
      var found := MatchingSuggestions(suggestions, query, tags);
      if found != [] {
        listItems := PyTake(found, MaxShownSuggestions);
        listVisible := true;
      } else {
        listVisible := false;
      }
    }

    /** `_add_tag_from_input`: the stripped text, when not blank, is added and the field cleared. */
    method AddTagFromInput()
      requires Valid()
      modifies this`tags, this`chips, this`placeholderShown, this`inputText, this`listVisible
      ensures Valid()
      ensures var t := Strip(old(inputText));
        && tags == (if t != "" then AddedTags(old(tags), t, maxTags) else old(tags))
        && inputText == (if t != "" then "" else old(inputText))
        && listVisible == (if t != "" then false else old(listVisible))
    {
      var t := Strip(inputText);
      if t != "" {
        var _ := AddTag(t);
        inputText := "";
        listVisible := false;
      }
    }

    /** `_add_tag_from_suggestion`: the clicked suggestion is offered to `add_tag` and the field cleared. */
    method ClickSuggestion(i: int)
      requires Valid() && 0 <= i < |listItems|
      modifies this`tags, this`chips, this`placeholderShown, this`inputText, this`listVisible
      ensures Valid() && tags == AddedTags(old(tags), listItems[i], maxTags)
      ensures inputText == "" && !listVisible
    {
      var _ := AddTag(listItems[i]);
      inputText := "";
      listVisible := false;
    }

    /**
     * `_handle_key_press`: Backspace in an empty field removes the last tag,
     * a comma or semicolon adds the typed tag, Escape hides the list.
     */
    method KeyPress(key: Key)
      requires Valid()
      modifies this`tags, this`chips, this`placeholderShown, this`inputText, this`listVisible
      ensures Valid()
      ensures key == Backspace && old(inputText) == "" && old(tags) != [] ==> tags == old(tags)[..|old(tags)| - 1]
      ensures (key == Comma || key == Semicolon) ==> var t := Strip(old(inputText));
        tags == (if t != "" then AddedTags(old(tags), t, maxTags) else old(tags))
      ensures key == Escape ==> !listVisible && tags == old(tags)
      ensures key in {Down, OtherKey} ==> tags == old(tags) && inputText == old(inputText) && listVisible == old(listVisible)
    {
      if key == Backspace && inputText == "" {
        if tags != [] {
          RemoveLastTag(tags);
          var _ := RemoveTag(tags[|tags| - 1]);
        }
      } else if key == Comma || key == Semicolon {
        AddTagFromInput();
      } else if key == Escape {
        listVisible := false;
      }
    }

    /** `ColoredTagInput.set_tag_color`: registers the colour and recolours an existing chip. */
    method SetTagColor(t: string, color: string)
      requires Valid()
      modifies this`tagColors, this`chips
      ensures Valid() && tagColors == old(tagColors)[t := color]
      ensures chips == if t in old(chips) then old(chips)[t := old(chips)[t].(color := Some(color))] else old(chips)
    {
      tagColors := tagColors[t := color];
      if t in chips {
        chips := chips[t := chips[t].(color := Some(color))];
      }
    }
  }

  /** Dropping the next excess tag: it is not among the kept ones, so the rest follows the kept ones. */
  lemma DropNext(kept: seq<string>, excess: seq<string>, i: nat)
    requires i < |excess| && Distinct(kept + excess[i..])
    ensures RemoveFirst(kept + excess[i..], excess[i]) == kept + excess[i + 1..]
  {
    var s := kept + excess[i..];
    assert s[|kept|] == excess[i];
    assert excess[i] !in kept by {
      forall k | 0 <= k < |kept|
        ensures kept[k] != excess[i]
      {
        assert s[k] == kept[k];
      }
    }
    RemoveFirstMiddle(kept, excess[i], excess[i + 1..]);
    assert kept + excess[i..] == kept + [excess[i]] + excess[i + 1..];
  }

  lemma {:induction false} RemoveFirstMiddle<T>(a: seq<T>, x: T, b: seq<T>)
    requires x !in a
    ensures RemoveFirst(a + [x] + b, x) == a + b
  {
    if a == [] {
      assert [x] + b == [] + [x] + b;
    } else {
      assert (a + [x] + b)[1..] == a[1..] + [x] + b;
      RemoveFirstMiddle(a[1..], x, b);
      assert a + b == [a[0]] + (a[1..] + b);
    }
  }

  // ---------------------------------------------------------------------
  // categories

  /**
   * `CategoryTagInput(categories)` as written: `_setup_category_ui` fills
   * the combo box and then connects `currentDataChanged`, a signal
   * `QComboBox` does not have, so the constructor raises `AttributeError`
   * and no widget is made.
   */
  method NewCategoryTagInput(categories0: seq<Named<seq<string>>>) returns (attributeError: bool)
    ensures attributeError
  {
    attributeError := true;
  }

  /** The combo box's item data: `None` for "All Categories", then each category by name. */
  function CategoryComboData(categories: seq<Named<seq<string>>>): (r: seq<Option<string>>)
    ensures |r| == |categories| + 1 && r[0] == None
    ensures forall i :: 0 <= i < |categories| ==> r[i + 1] == Some(categories[i].name)
  {
    [None] + seq(|categories|, i requires 0 <= i < |categories| => Some(categories[i].name))
  }

  /**
   * A tag input whose suggestions come from the category picked in a combo
   * box, as intended: the combo box's `currentIndexChanged` passes the
   * picked item's data to `_on_category_changed`.
   */
  class CategoryTagInput {
    const input: TagInputWidget
    const categories: seq<Named<seq<string>>>
    const comboData: seq<Option<string>>
    var current: Option<string>

    constructor Intended(categories0: seq<Named<seq<string>>>)
      ensures fresh(input) && input.Valid() && categories == categories0 && current == None
      ensures input.tags == [] && input.suggestions == [] && input.maxTags == None && input.placeholder == "Add tags..."
      ensures comboData == CategoryComboData(categories0)
    {
      input := new TagInputWidget("Add tags...", [], None);
      categories := categories0;
      comboData := CategoryComboData(categories0);
      current := None;
    }

    /**
     * Picking combo item `index`: its data goes to `_on_category_changed`;
     * an index outside the items (-1 once the combo is emptied) has no data.
     */
    method SelectCategory(index: int)
      modifies this`current, input`suggestions
      ensures current == if 0 <= index < |comboData| then comboData[index] else None
      ensures index == 0 && comboData == CategoryComboData(categories) ==> input.suggestions == ConcatValues(categories)
      ensures (0 < index < |comboData| && comboData == CategoryComboData(categories) && IsDict(categories) &&
               categories[index - 1].name != "") ==> input.suggestions == categories[index - 1].item
    {
      var data := if 0 <= index < |comboData| then comboData[index] else None;
      OnCategoryChanged(data);
      if 0 < index < |comboData| && comboData == CategoryComboData(categories) && IsDict(categories) {
        GetAt(categories, index - 1);
      }
    }

    /** `_on_category_changed`: a named category offers its tags (none when unknown), no category offers all. */
    method OnCategoryChanged(category: Option<string>)
      modifies this`current, input`suggestions
      ensures current == category
      ensures input.suggestions == if category.Some? && category.value != "" then
                                     (match Get(categories, category.value) case Some(ts) => ts case None => [])
                                   else ConcatValues(categories)
    {
      current := category;
      if category.Some? && category.value != "" {
        match Get(categories, category.value) {
          case Some(ts) => input.SetSuggestions(ts);
          case None => input.SetSuggestions([]);
        }
      } else {
        var all := ExtendAll(categories);
        input.SetSuggestions(all);
      }
    }
  }

  // ---------------------------------------------------------------------
  // read-only display

  /** The display's chips: one per tag, without a remove button. */
  function DisplayChips(ts: seq<string>): (r: seq<Chip>)
    ensures |r| == |ts|
  {
    seq(|ts|, i requires 0 <= i < |ts| => Chip(ts[i], false, None))
  }

  class ReadOnlyTagDisplay {
    var tags: seq<string>
    var chips: seq<Chip>

    constructor (ts: seq<string>)
      ensures tags == ts && chips == DisplayChips(ts)
    {
      tags := ts;
      chips := [];
      new;
      UpdateDisplay();
    }

    /** `_update_display`: the chips are rebuilt, one per tag in order. */
    method UpdateDisplay()
      modifies this`chips
      ensures chips == DisplayChips(tags)
    {
      chips := [];
      var i := 0;
      while i < |tags|
        invariant 0 <= i <= |tags|
        invariant chips == DisplayChips(tags[..i])
      {
        chips := chips + [Chip(tags[i], false, None)];
        i := i + 1;
      }
      assert tags[..i] == tags;
    }

    method SetTags(ts: seq<string>)
      modifies this`tags, this`chips
      ensures tags == ts && chips == DisplayChips(ts)
    {
      tags := ts;
      UpdateDisplay();
    }

    method GetTags() returns (r: seq<string>)
      ensures r == tags
    {
      r := tags;
    }

    /** A left click on a chip emits its tag. */
    method ClickChip(i: int, left: bool) returns (clicked: Option<string>)
      requires 0 <= i < |chips|
      ensures clicked == if left then Some(chips[i].text) else None
    {
      clicked := if left then Some(chips[i].text) else None;
    }
  }
}
