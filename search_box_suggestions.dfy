/**
 * A search field with a drop-down of live suggestions. Typing filters the
 * suggestion list case-insensitively. The filter runs once the query is at
 * least `min_chars` long, and shows at most `max_suggestions` matches in
 * their original order. A single-shot timer then asks for a search. Return
 * asks for one at once.
 *
 * The three subclasses are one class here, told apart by the variant
 * chosen at construction, so that overridden handlers dispatch on it:
 *  - the advanced box keeps the five most recent searches and offers them
 *    when the field is emptied;
 *  - the category box swaps its suggestions when a category is picked in a
 *    combo box;
 *  - the history box keeps the last twenty searches.
 *
 * The timers are modelled by whether the search timer is pending and by
 * explicit "timer fires" and "focus out" steps. A programmatic `setText`
 * runs the text-changed handler exactly when it changes the text, as
 * QLineEdit does.
 */
module SearchBoxSuggestions {
  import opened Common
  import opened PyDict

  // ---------------------------------------------------------------------
  // the suggestion filter

  /** The suggestions whose lower-cased text contains the lower-cased query, in their original order. */
  function Matches(suggestions: seq<string>, queryLower: string): (r: seq<string>)
    ensures |r| <= |suggestions|
  {
    if suggestions == [] then []
    else
      (if Contains(Lower(suggestions[0]), queryLower) then [suggestions[0]] else [])
      + Matches(suggestions[1..], queryLower)
  }

  /** A suggestion matches exactly when it is offered and contains the query, ignoring case. */
  lemma {:induction false} MatchesSpec(suggestions: seq<string>, queryLower: string, x: string)
    ensures x in Matches(suggestions, queryLower) <==> x in suggestions && Contains(Lower(x), queryLower)
  {
    if suggestions != [] {
      MatchesSpec(suggestions[1..], queryLower, x);
      HeadTail(suggestions);
    }
  }

  /** The filter keeps order: filtering a concatenation concatenates the filtered parts. */
  lemma {:induction false} MatchesAppend(a: seq<string>, b: seq<string>, queryLower: string)
    ensures Matches(a + b, queryLower) == Matches(a, queryLower) + Matches(b, queryLower)
  {
    if a != [] {
      assert (a + b)[0] == a[0];
      assert (a + b)[1..] == a[1..] + b;
      MatchesAppend(a[1..], b, queryLower);
      var h := if Contains(Lower(a[0]), queryLower) then [a[0]] else [];
      assert Matches(a + b, queryLower) == h + Matches(a[1..] + b, queryLower);
      assert Matches(a, queryLower) == h + Matches(a[1..], queryLower);
    } else {
      assert a + b == b;
    }
  }

  /** `_filter_suggestions`' list: the matches for the lower-cased query, cut to the maximum (Python `[:max]`). */
  function Filtered(suggestions: seq<string>, query: string, max: int): seq<string> {
    PyTake(Matches(suggestions, Lower(query)), max)
  }

  /**
   * What is shown is a prefix of the in-order matches, never more than a
   * non-negative maximum, and every match is shown when they fit.
   */
  lemma FilteredSpec(suggestions: seq<string>, query: string, max: int)
    ensures var r := Filtered(suggestions, query, max);
      && r <= Matches(suggestions, Lower(query))
      && (max >= 0 ==> |r| <= max)
      && (|Matches(suggestions, Lower(query))| <= max ==> r == Matches(suggestions, Lower(query)))
      && (forall x :: x in r ==> x in suggestions && Contains(Lower(x), Lower(query)))
  {
    var m := Matches(suggestions, Lower(query));
    var r := Filtered(suggestions, query, max);
    forall x | x in r
      ensures x in suggestions && Contains(Lower(x), Lower(query))
    {
      MatchesSpec(suggestions, Lower(query), x);
    }
  }

  // ---------------------------------------------------------------------
  // the drop-down

  /** The approximate height of one suggestion row, in pixels. */
  const ItemHeight := 32

  /** The drop-down never grows beyond this height. */
  const MaxDropdownHeight := 200

  /** The drop-down height for `n` rows: the rows' height, capped. */
  function DropdownHeight(n: nat): (h: int)
    ensures h <= MaxDropdownHeight && h <= n * ItemHeight
    ensures h == MaxDropdownHeight || h == n * ItemHeight
  {
    if n * ItemHeight < MaxDropdownHeight then n * ItemHeight else MaxDropdownHeight
  }

  /** Up to six rows get their full height; from seven on the drop-down is capped. */
  lemma DropdownHeightRows(n: nat)
    ensures n <= 6 ==> DropdownHeight(n) == 32 * n
    ensures n >= 7 ==> DropdownHeight(n) == 200
  {
  }

  /** The drop-down list: its row texts, whether it shows, and its maximum height. */
  datatype Dropdown = Dropdown(items: seq<string>, visible: bool, maxHeight: int)

  function Hidden(d: Dropdown): Dropdown {
    d.(visible := false)
  }

  /**
   * `_update_suggestions_display`: the list is cleared; with matches it
   * holds them, shows, and takes their height; without, it hides.
   */
  function ShowFound(d: Dropdown, found: seq<string>): (r: Dropdown)
    ensures r.visible <==> found != []
    ensures r.visible ==> r.items == found && r.maxHeight == DropdownHeight(|found|)
    ensures !r.visible ==> r.items == [] && r.maxHeight == d.maxHeight
  {
    if found == [] then Dropdown([], false, d.maxHeight)
    else Dropdown(found, true, DropdownHeight(|found|))
  }

  const RecentHeader := "Recent searches"

  /** A recent search's row: a clock glyph, a space, the search. */
  function RecentEntry(s: string): string {
    "\U{1F550} " + s
  }

  /** `_show_recent_searches`' rows: the header, then one row per recent search, newest first. */
  function RecentItems(recent: seq<string>): (r: seq<string>)
    ensures |r| == |recent| + 1 && r[0] == RecentHeader
    ensures forall i :: 0 <= i < |recent| ==> r[i + 1] == RecentEntry(recent[i])
  {
    [RecentHeader] + seq(|recent|, i requires 0 <= i < |recent| => RecentEntry(recent[i]))
  }

  /** `_on_text_changed` after filtering: a query shorter than `min_chars` hides the list. */
  function TextChangeDropdown(afterFilter: Dropdown, text: string, minChars: int): Dropdown {
    if |text| >= minChars then afterFilter else Hidden(afterFilter)
  }

  // ---------------------------------------------------------------------
  // search requests

  /** Return asks for a search with the stripped text, unless it is blank. */
  function EnterRequest(text: string): (r: Option<string>)
    ensures r.Some? ==> r.value == Strip(text) && r.value != ""
  {
    var q := Strip(text);
    if q != "" then Some(q) else None
  }

  /** The search timer asks only when the stripped text is also at least `min_chars` long. */
  function TimedRequest(text: string, minChars: int): (r: Option<string>)
    ensures r.Some? ==> r.value == Strip(text) && r.value != "" && |r.value| >= minChars
  {
    var q := Strip(text);
    if q != "" && |q| >= minChars then Some(q) else None
  }

  /** Return asks for a search exactly when the text is not all whitespace. */
  lemma EnterRequestSpec(text: string)
    ensures EnterRequest(text).Some? <==> !AllSpace(text)
  {
    StripEmptyIff(text);
  }

  /** A timed search is a Return search that also meets the length minimum. */
  lemma TimedRequestSpec(text: string, minChars: int)
    ensures TimedRequest(text, minChars).Some? <==> !AllSpace(text) && |Strip(text)| >= minChars
    ensures TimedRequest(text, minChars).Some? ==> TimedRequest(text, minChars) == EnterRequest(text)
  {
    StripEmptyIff(text);
  }

  // ---------------------------------------------------------------------
  // recent searches and search history

  /** The advanced box remembers this many recent searches. */
  const MaxRecent := 5

  /** The history box remembers this many searches. */
  const MaxHistory := 20

  /**
   * Recording a search in a repeat-free list that fits the cap: the search
   * comes first, the list stays repeat-free and within the cap, and only
   * when a new search meets a full list does the oldest entry drop off.
   */
  lemma RecordSearch(s: seq<string>, q: string, cap: int)
    requires Distinct(s) && 1 <= cap && |s| <= cap
    ensures var r := MoveToFront(s, q, cap);
      && r[0] == q && Distinct(r) && |r| <= cap
      && r == (if q in s || |s| < cap then [q] + RemoveFirst(s, q) else [q] + s[..cap - 1])
  {
    MoveToFrontDistinct(s, q, cap);
    RemoveFirstMultiset(s, q);
    var full := [q] + RemoveFirst(s, q);
    if !(q in s || |s| < cap) {
      assert RemoveFirst(s, q) == s;
      assert full[..cap] == [q] + s[..cap - 1];
    }
  }

  /** Every earlier search is kept unless a new search meets a full list. */
  lemma RecordSearchKeeps(s: seq<string>, q: string, cap: int)
    requires Distinct(s) && 1 <= cap && |s| <= cap
    ensures q in s || |s| < cap ==> forall y :: y in MoveToFront(s, q, cap) <==> y == q || y in s
  {
    RecordSearch(s, q, cap);
    RemoveFirstDistinct(s, q);
  }

  /** `add_suggestion`: appended only when not already offered. */
  function WithSuggestion(suggestions: seq<string>, s: string): seq<string> {
    if s in suggestions then suggestions else suggestions + [s]
  }

  /** Adding offers exactly one more text, never twice, and adding it again changes nothing. */
  lemma WithSuggestionSpec(suggestions: seq<string>, s: string)
    ensures var r := WithSuggestion(suggestions, s);
      && (forall y :: y in r <==> y in suggestions || y == s)
      && (Distinct(suggestions) ==> Distinct(r))
      && WithSuggestion(r, s) == r
  {
    var r := WithSuggestion(suggestions, s);
    if s !in suggestions && Distinct(suggestions) {
      forall i, j | 0 <= i < j < |r|
        ensures r[i] != r[j]
      {
        if j == |suggestions| {
          assert r[i] == suggestions[i];
        }
      }
    }
  }

  // ---------------------------------------------------------------------
  // categories

  datatype ComboItem = ComboItem(text: string, data: string)

  /** The category combo box's first entry, which offers every category's suggestions. */
  const AllItem := ComboItem("All Categories", "all")

  /**
   * `_on_category_changed`'s suggestions: every category's list for the
   * "all" data, otherwise the list of the category with the shown text,
   * or none when there is no such category.
   */
  function CategorySuggestions(categories: seq<Named<seq<string>>>, data: string, text: string): seq<string> {
    if data == "all" then ConcatValues(categories)
    else match Get(categories, text) case Some(s) => s case None => []
  }

  // ---------------------------------------------------------------------
  // the widget

  datatype Variant = Plain | Advanced | Categorized | WithHistory

  class SearchBox {
    const variant: Variant
    var placeholder: string
    var text: string
    var suggestions: seq<string>
    var filtered: seq<string>
    var maxSuggestions: int
    var minChars: int
    var searchDelay: int
    var dropdown: Dropdown
    /** Whether the single-shot search timer is pending, and the delay it was last started with. */
    var timerActive: bool
    var timerInterval: int
    /** The advanced box's recent searches, newest first, and whether it offers them. */
    var recent: seq<string>
    var showRecent: bool
    /** The history box's searches, newest first. */
    var history: seq<string>
    /** The category box's categories (in insertion order), combo entries and chosen entry. */
    var categories: seq<Named<seq<string>>>
    var comboItems: seq<ComboItem>
    var comboIndex: nat
    var currentCategory: string

    ghost predicate Valid()
      reads this
    {
      && Distinct(recent) && |recent| <= MaxRecent
      && |history| <= MaxHistory
      && (dropdown.visible ==> dropdown.items != [])
      && (variant == Categorized ==> comboIndex < |comboItems| && comboItems[0] == AllItem)
    }

    constructor (variant0: Variant, placeholder0: string)
      ensures Valid() && variant == variant0 && placeholder == placeholder0
      ensures text == "" && suggestions == [] && filtered == []
      ensures maxSuggestions == 10 && minChars == 1 && searchDelay == 300
      ensures dropdown == Dropdown([], false, MaxDropdownHeight) && !timerActive
      ensures recent == [] && showRecent == (variant0 == Advanced) && history == []
      ensures categories == [] && comboIndex == 0
      ensures comboItems == (if variant0 == Categorized then [AllItem] else [])
      ensures currentCategory == (if variant0 == Categorized then "all" else "")
    {
      variant := variant0;
      placeholder := placeholder0;
      text := "";
      suggestions := [];
      filtered := [];
      maxSuggestions := 10;
      minChars := 1;
      searchDelay := 300;
      dropdown := Dropdown([], false, MaxDropdownHeight);
      timerActive := false;
      timerInterval := 0;
      recent := [];
      showRecent := variant0 == Advanced;
      history := [];
      categories := [];
      comboItems := if variant0 == Categorized then [AllItem] else [];
      comboIndex := 0;
      currentCategory := if variant0 == Categorized then "all" else "";
    }

    /**
     * The filtered list and drop-down `_filter_suggestions` leaves for a
     * query. The advanced box offers its recent searches for an empty
     * query. Otherwise a query that is empty or shorter than `min_chars`
     * only hides the list, and a longer one shows its matches.
     */
    function FilterOutcome(query: string): (seq<string>, Dropdown)
      reads this
    {
      if variant == Advanced && query == "" then
        (filtered, if showRecent && recent != [] then Dropdown(RecentItems(recent), true, dropdown.maxHeight)
                   else Hidden(dropdown))
      else if query == "" || |query| < minChars then
        (filtered, Hidden(dropdown))
      else
        var f := Filtered(suggestions, query, maxSuggestions);
        (f, ShowFound(dropdown, f))
    }

    /** The drop-down can show only with rows in it. */
    lemma FilterOutcomeShowsRows(query: string)
      requires Valid()
      ensures FilterOutcome(query).1.visible ==> FilterOutcome(query).1.items != []
    {
    }

    method FilterSuggestions(query: string)
      requires Valid()
      modifies this`filtered, this`dropdown
      ensures Valid()
      ensures filtered == old(FilterOutcome(query)).0 && dropdown == old(FilterOutcome(query)).1
    {
      FilterOutcomeShowsRows(query);
      if variant == Advanced && query == "" {
        if showRecent && recent != [] {
          dropdown := Dropdown(RecentItems(recent), true, dropdown.maxHeight);
        } else {
          dropdown := Hidden(dropdown);
        }
      } else if query == "" || |query| < minChars {
        dropdown := Hidden(dropdown);
      } else {
        filtered := Filtered(suggestions, query, maxSuggestions);
        dropdown := ShowFound(dropdown, filtered);
      }
    }

    /**
     * `_on_text_changed`: the new text is echoed and filtered, and the
     * search timer restarts when the text is at least `min_chars` long;
     * otherwise the list hides.
     */
    method OnTextChanged(t: string) returns (echo: string)
      requires Valid()
      modifies this`filtered, this`dropdown, this`timerActive, this`timerInterval
      ensures Valid() && echo == t
      ensures filtered == old(FilterOutcome(t)).0
      ensures dropdown == TextChangeDropdown(old(FilterOutcome(t)).1, t, minChars)
      ensures timerActive == (|t| >= minChars)
      ensures timerInterval == if |t| >= minChars then searchDelay else old(timerInterval)
    {
      echo := t;
      FilterSuggestions(t);
      timerActive := false;
      if |t| >= minChars {
        timerActive := true;
        timerInterval := searchDelay;
      } else {
        dropdown := Hidden(dropdown);
      }
    }

    /** `set_text` (and the user's typing): a new text runs the text-changed handler; the same text does nothing. */
    method SetText(t: string)
      requires Valid()
      modifies this`text, this`filtered, this`dropdown, this`timerActive, this`timerInterval
      ensures Valid() && text == t
      ensures t == old(text) ==> filtered == old(filtered) && dropdown == old(dropdown)
                                 && timerActive == old(timerActive) && timerInterval == old(timerInterval)
      ensures t != old(text) ==>
                && filtered == old(FilterOutcome(t)).0
                && dropdown == TextChangeDropdown(old(FilterOutcome(t)).1, t, minChars)
                && timerActive == (|t| >= minChars)
                && timerInterval == (if |t| >= minChars then searchDelay else old(timerInterval))
    {
      if t != text {
        text := t;
        var _ := OnTextChanged(t);
      }
    }

    /** `get_text`. */
    method GetText() returns (t: string)
      ensures t == text
    {
      t := text;
    }

    /** `clear`: the text is emptied (running the handler if it was not empty) and the list hides. */
    method Clear()
      requires Valid()
      modifies this`text, this`filtered, this`dropdown, this`timerActive, this`timerInterval
      ensures Valid() && text == "" && !dropdown.visible
      ensures old(text) != "" ==>
                && filtered == old(FilterOutcome("")).0
                && dropdown == Hidden(old(FilterOutcome("")).1)
                && timerActive == (0 >= minChars)
      ensures old(text) == "" ==> filtered == old(filtered) && dropdown == Hidden(old(dropdown))
    {
      SetText("");
      dropdown := Hidden(dropdown);
    }

    /**
     * `_on_suggestion_clicked`: the clicked row's text becomes the field's
     * text (running the text-changed handler when it differs), the list
     * hides, and the row's text is reported as selected.
     */
    method ClickSuggestion(i: nat) returns (selected: string)
      requires Valid() && i < |dropdown.items|
      modifies this`text, this`filtered, this`dropdown, this`timerActive, this`timerInterval
      ensures Valid()
      ensures selected == old(dropdown.items[i]) && text == selected && !dropdown.visible
      ensures selected != old(text) ==>
                && filtered == old(FilterOutcome(selected)).0
                && dropdown == Hidden(old(FilterOutcome(selected)).1)
                && timerActive == (|selected| >= minChars)
      ensures selected == old(text) ==> filtered == old(filtered) && dropdown == Hidden(old(dropdown))
    {
      selected := dropdown.items[i];
      SetText(selected);
      dropdown := Hidden(dropdown);
    }

    /**
     * `_on_search_requested` (Return): a non-blank stripped text hides the
     * list and is asked for; the advanced box first records it among its
     * recent searches, the history box in its history.
     */
    method ReturnPressed() returns (requested: Option<string>)
      requires Valid()
      modifies this`recent, this`history, this`dropdown
      ensures Valid()
      ensures requested == EnterRequest(text)
      ensures recent == if variant == Advanced && requested.Some? then MoveToFront(old(recent), requested.value, MaxRecent)
                        else old(recent)
      ensures history == if variant == WithHistory && requested.Some? then MoveToFront(old(history), requested.value, MaxHistory)
                         else old(history)
      ensures dropdown == if requested.Some? then Hidden(old(dropdown)) else old(dropdown)
    {
      requested := EnterRequest(text);
      if requested.Some? {
        var q := requested.value;
        if variant == Advanced {
          RecordSearch(recent, q, MaxRecent);
          recent := MoveToFront(recent, q, MaxRecent);
        } else if variant == WithHistory {
          history := MoveToFront(history, q, MaxHistory);
        }
        dropdown := Hidden(dropdown);
      }
    }

    /** `_perform_search`, when the pending search timer fires. */
    method SearchTimerFires() returns (requested: Option<string>)
      requires timerActive
      modifies this`timerActive
      ensures !timerActive && requested == TimedRequest(text, minChars)
    {
      timerActive := false;
      requested := TimedRequest(text, minChars);
    }

    /** `_on_focus_out`: the list hides (after a short delay, not modelled). */
    method FocusOut()
      requires Valid()
      modifies this`dropdown
      ensures Valid() && dropdown == Hidden(old(dropdown))
    {
      dropdown := Hidden(dropdown);
    }

    /** `set_suggestions`. */
    method SetSuggestions(s: seq<string>)
      modifies this`suggestions
      ensures suggestions == s
    {
      suggestions := s;
    }

    /** `add_suggestion`: a text already offered is not added twice. */
    method AddSuggestion(s: string)
      modifies this`suggestions
      ensures suggestions == WithSuggestion(old(suggestions), s)
    {
      if s !in suggestions {
        suggestions := suggestions + [s];
      }
    }

    /** `clear_suggestions`: nothing is offered and the list hides. */
    method ClearSuggestions()
      requires Valid()
      modifies this`suggestions, this`dropdown
      ensures Valid() && suggestions == [] && dropdown == Hidden(old(dropdown))
    {
      suggestions := [];
      dropdown := Hidden(dropdown);
    }

    method SetPlaceholder(p: string)
      modifies this`placeholder
      ensures placeholder == p
    {
      placeholder := p;
    }

    method SetMaxSuggestions(n: int)
      modifies this`maxSuggestions
      ensures maxSuggestions == n
    {
      maxSuggestions := n;
    }

    method SetMinChars(n: int)
      modifies this`minChars
      ensures minChars == n
    {
      minChars := n;
    }

    method SetSearchDelay(ms: int)
      modifies this`searchDelay
      ensures searchDelay == ms
    {
      searchDelay := ms;
    }

    // advanced box

    /** `clear_recent_searches`. */
    method ClearRecentSearches()
      requires Valid() && variant == Advanced
      modifies this`recent
      ensures Valid() && recent == []
    {
      recent := [];
    }

    /** `get_recent_searches`: a copy, newest first. */
    method GetRecentSearches() returns (r: seq<string>)
      requires variant == Advanced
      ensures r == recent
    {
      r := recent;
    }

    // history box

    /** `get_search_history`: a copy, newest first. */
    method GetSearchHistory() returns (r: seq<string>)
      requires variant == WithHistory
      ensures r == history
    {
      r := history;
    }

    /** `clear_history`. */
    method ClearHistory()
      requires Valid() && variant == WithHistory
      modifies this`history
      ensures Valid() && history == []
    {
      history := [];
    }

    /** `load_history`: the first twenty entries of the given list, repeats and all. */
    method LoadHistory(h: seq<string>)
      requires Valid() && variant == WithHistory
      modifies this`history
      ensures Valid() && history == PyTake(h, MaxHistory)
    {
      history := PyTake(h, MaxHistory);
    }

    // category box

    /**
     * `add_category`: the category's list is stored (replacing one of the
     * same name) and the combo box gains an entry whose data is the
     * lower-cased name, even when the name was there before.
     */
    method AddCategory(name: string, s: seq<string>)
      requires Valid() && variant == Categorized
      modifies this`categories, this`comboItems
      ensures Valid()
      ensures categories == Put(old(categories), name, s)
      ensures comboItems == old(comboItems) + [ComboItem(name, Lower(name))]
    {
      categories := Put(categories, name, s);
      comboItems := comboItems + [ComboItem(name, Lower(name))];
    }

    /**
     * The user picks combo entry `i`. The category handler runs only when
     * the shown text changes (`currentTextChanged`): it reports the new
     * entry's data and filters the current text against the new
     * category's suggestions.
     */
    method SelectCategory(i: nat) returns (changed: Option<string>)
      requires Valid() && variant == Categorized && i < |comboItems|
      modifies this`comboIndex, this`currentCategory, this`suggestions, this`filtered, this`dropdown
      ensures Valid() && comboIndex == i
      ensures var e := comboItems[i];
        if e.text != old(comboItems[comboIndex].text) then
          && changed == Some(e.data) && currentCategory == e.data
          && suggestions == CategorySuggestions(categories, e.data, e.text)
          && (text == "" ==> filtered == old(filtered) && dropdown == old(dropdown))
          && (text != "" && |text| >= minChars ==>
                filtered == Filtered(suggestions, text, maxSuggestions) && dropdown == ShowFound(old(dropdown), filtered))
          && (text != "" && |text| < minChars ==> filtered == old(filtered) && dropdown == Hidden(old(dropdown)))
        else
          && changed == None && currentCategory == old(currentCategory) && suggestions == old(suggestions)
          && filtered == old(filtered) && dropdown == old(dropdown)
    {
      var before := comboItems[comboIndex].text;
      comboIndex := i;
      if comboItems[i].text != before {
        var data := OnCategoryChanged(comboItems[i].text);
        changed := Some(data);
      } else {
        changed := None;
      }
    }

    /**
     * `_on_category_changed`: the chosen entry's data becomes the current
     * category, the suggestions become that category's (all of them for
     * "all"), and a non-empty text is filtered again.
     */
    method OnCategoryChanged(categoryText: string) returns (data: string)
      requires Valid() && variant == Categorized
      modifies this`currentCategory, this`suggestions, this`filtered, this`dropdown
      ensures Valid()
      ensures data == comboItems[comboIndex].data && currentCategory == data
      ensures suggestions == CategorySuggestions(categories, data, categoryText)
      ensures text == "" ==> filtered == old(filtered) && dropdown == old(dropdown)
      ensures text != "" && |text| >= minChars ==>
                filtered == Filtered(suggestions, text, maxSuggestions) && dropdown == ShowFound(old(dropdown), filtered)
      ensures text != "" && |text| < minChars ==> filtered == old(filtered) && dropdown == Hidden(old(dropdown))
    {
      data := comboItems[comboIndex].data;
      currentCategory := data;
      if data == "all" {
        var all := ExtendAll(categories);
        SetSuggestions(all);
      } else {
        match Get(categories, categoryText) {
          case Some(s) => SetSuggestions(s);
          case None => SetSuggestions([]);
        }
      }
      if text != "" {
        FilterSuggestions(text);
      }
    }
  }

  // ---------------------------------------------------------------------
  // the emptied advanced box

  /**
   * As written, emptying the advanced box never shows its recent searches
   * while `min_chars` is at least one: the filter shows them, and the
   * text-changed handler hides the list straight after, because the empty
   * text is shorter than `min_chars`.
   */
  lemma RecentSearchesHiddenWhenEmptied(box: SearchBox)
    requires box.variant == Advanced && box.showRecent && box.recent != [] && box.minChars >= 1
    ensures box.FilterOutcome("").1.visible
    ensures box.FilterOutcome("").1.items == RecentItems(box.recent)
    ensures !TextChangeDropdown(box.FilterOutcome("").1, "", box.minChars).visible
  {
  }

  /**
   * The evidently intended handler: an advanced box whose empty text shows
   * its recent searches keeps them showing; every other case is unchanged.
   */
  function IntendedTextChangeDropdown(variant: Variant, afterFilter: Dropdown, text: string, minChars: int): Dropdown {
    if |text| >= minChars || (variant == Advanced && text == "") then afterFilter else Hidden(afterFilter)
  }

  /** With the intended handler, emptying the advanced box shows its recent searches. */
  lemma IntendedShowsRecentWhenEmptied(box: SearchBox)
    requires box.variant == Advanced && box.showRecent && box.recent != []
    ensures var d := IntendedTextChangeDropdown(box.variant, box.FilterOutcome("").1, "", box.minChars);
      d.visible && d.items == RecentItems(box.recent)
  {
  }

  /** The intended handler differs from the written one only for the emptied advanced box. */
  lemma IntendedDiffersOnlyWhenEmptied(variant: Variant, d: Dropdown, text: string, minChars: int)
    ensures IntendedTextChangeDropdown(variant, d, text, minChars) != TextChangeDropdown(d, text, minChars) ==>
              variant == Advanced && text == "" && minChars > 0 && d.visible
  {
  }
}
