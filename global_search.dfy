/**
 * Global search: a search box that, after a pause in typing or on Enter,
 * asks every registered provider for results to the stripped query, tags
 * each result with the provider it came from, shows them in registration
 * order and counts them in a status line; a type filter lists the
 * providers; a simpler box only reports the stripped query; and two sample
 * providers.
 *
 * Providers are foreign callables: what each one returned (or that it
 * raised) for the current search is a parameter, one outcome per provider
 * in registration order. The debounce timer firing is a method call.
 */
module GlobalSearch {
  import opened Common

  /**
   * A result dictionary: its `title`, `description`, `type`, `score` and
   * `provider` keys, `None` where the dictionary lacks the key.
   */
  datatype Result = Result(title: Option<string>, description: Option<string>, kind: Option<string>,
                           score: Option<real>, provider: Option<string>)

  /** What one provider did with a query: returned a list of results, or raised. */
  datatype Outcome = Returned(results: seq<Result>) | Raised

  /** The filter dictionary handed to the providers and to `search_performed`. */
  datatype Filters = Filters(kind: Option<string>, caseSensitive: bool, wholeWords: bool, regex: bool)

  /** An entry of the type combo box: its text and its data. */
  datatype FilterItem = FilterItem(text: string, data: Option<string>)

  /** The three filter check boxes. */
  datatype Flag = CaseSensitive | WholeWords | Regex

  /** A `search_performed` emission. */
  datatype Performed = Performed(query: string, filters: Filters)

  const AllItem := FilterItem("All", None)
  const IdleStatus := "Type to search..."
  const SearchingStatus := "Searching..."

  function FoundStatus(n: nat): string {
    "Found " + NatToStr(n) + " results"
  }

  // ---------------------------------------------------------------------
  // The aggregation of `_perform_search`

  function Tag(r: Result, name: string): Result {
    r.(provider := Some(name))
  }

  /** What the provider `name` adds to the results: nothing when it raised. */
  function Contribution(name: string, o: Outcome): (r: seq<Result>)
    ensures o.Raised? ==> r == []
    ensures o.Returned? ==> |r| == |o.results|
    ensures o.Returned? ==> forall i :: 0 <= i < |r| ==> r[i] == Tag(o.results[i], name)
  {
    match o
    case Raised => []
    case Returned(rs) => seq(|rs|, i requires 0 <= i < |rs| => Tag(rs[i], name))
  }

  /** The results of all providers, each provider's after those registered before it. */
  function Aggregate(names: seq<string>, outcomes: seq<Outcome>): seq<Result>
    requires |names| == |outcomes|
  {
    if names == [] then []
    else Aggregate(names[..|names| - 1], outcomes[..|outcomes| - 1])
         + Contribution(names[|names| - 1], outcomes[|outcomes| - 1])
  }

  /** How many results a provider returned; none when it raised. */
  function Count(o: Outcome): nat {
    if o.Returned? then |o.results| else 0
  }

  /** The count `_perform_search` keeps in `total_results`. */
  function Total(outcomes: seq<Outcome>): nat {
    if outcomes == [] then 0 else Total(outcomes[..|outcomes| - 1]) + Count(outcomes[|outcomes| - 1])
  }

  /** The status line's count is the number of results shown. */
  lemma {:induction false} AggregateCount(names: seq<string>, outcomes: seq<Outcome>)
    requires |names| == |outcomes|
    ensures |Aggregate(names, outcomes)| == Total(outcomes)
  {
    if names != [] {
      AggregateCount(names[..|names| - 1], outcomes[..|outcomes| - 1]);
    }
  }

  /** Every result carries the name of a registered provider. */
  lemma {:induction false} AggregateTagged(names: seq<string>, outcomes: seq<Outcome>)
    requires |names| == |outcomes|
    ensures forall r :: r in Aggregate(names, outcomes) ==> r.provider.Some? && r.provider.value in names
  {
    if names != [] {
      var init, last := names[..|names| - 1], names[|names| - 1];
      AggregateTagged(init, outcomes[..|outcomes| - 1]);
      var c := Contribution(last, outcomes[|outcomes| - 1]);
      forall r | r in Aggregate(names, outcomes)
        ensures r.provider.Some? && r.provider.value in names
      {
        if r in c {
          var i :| 0 <= i < |c| && c[i] == r;
          assert r.provider == Some(last);
        } else {
          assert r.provider.value in init;
        }
      }
    }
  }

  /** The results for two runs of providers, one after the other, are the first run's followed by the second's. */
  lemma {:induction false} AggregateAppend(a: seq<string>, oa: seq<Outcome>, b: seq<string>, ob: seq<Outcome>)
    requires |a| == |oa| && |b| == |ob|
    ensures Aggregate(a + b, oa + ob) == Aggregate(a, oa) + Aggregate(b, ob)
    decreases |b|
  {
    if b == [] {
      assert a + b == a && oa + ob == oa;
    } else {
      var bi, oi := b[..|b| - 1], ob[..|ob| - 1];
      AggregateAppend(a, oa, bi, oi);
      assert (a + b)[..|a + b| - 1] == a + bi;
      assert (oa + ob)[..|oa + ob| - 1] == oa + oi;
      assert (a + b)[|a + b| - 1] == b[|b| - 1] && (oa + ob)[|oa + ob| - 1] == ob[|ob| - 1];
      ConcatAssoc(Aggregate(a, oa), Aggregate(bi, oi), Contribution(b[|b| - 1], ob[|ob| - 1]));
    }
  }

  /** The providers' results are shown in registration order: any split of the providers splits the results. */
  lemma AggregateSplit(names: seq<string>, outcomes: seq<Outcome>, k: nat)
    requires |names| == |outcomes| && k <= |names|
    ensures Aggregate(names, outcomes) ==
            Aggregate(names[..k], outcomes[..k]) + Aggregate(names[k..], outcomes[k..])
  {
    assert names == names[..k] + names[k..] && outcomes == outcomes[..k] + outcomes[k..];
    AggregateAppend(names[..k], outcomes[..k], names[k..], outcomes[k..]);
  }

  /** A provider that raises adds nothing, and the providers before and after it still contribute. */
  lemma AggregateSkipsRaised(names: seq<string>, outcomes: seq<Outcome>, i: nat)
    requires |names| == |outcomes| && i < |names| && outcomes[i].Raised?
    ensures Aggregate(names, outcomes) ==
            Aggregate(names[..i], outcomes[..i]) + Aggregate(names[i + 1..], outcomes[i + 1..])
  {
    AggregateSplit(names, outcomes, i + 1);
    assert names[..i + 1][..i] == names[..i] && outcomes[..i + 1][..i] == outcomes[..i];
    assert Aggregate(names[..i + 1], outcomes[..i + 1]) == Aggregate(names[..i], outcomes[..i]);
  }

  /** One provider's results, as the last step of the loop. */
  lemma AggregateStep(names: seq<string>, outcomes: seq<Outcome>, i: nat)
    requires |names| == |outcomes| && i < |names|
    ensures Aggregate(names[..i + 1], outcomes[..i + 1]) ==
            Aggregate(names[..i], outcomes[..i]) + Contribution(names[i], outcomes[i])
    ensures Total(outcomes[..i + 1]) == Total(outcomes[..i]) + Count(outcomes[i])
  {
    assert names[..i + 1][..i] == names[..i] && outcomes[..i + 1][..i] == outcomes[..i];
  }

  // ---------------------------------------------------------------------
  // The sample providers

  const ExampleFile := Result(Some("example.txt"), Some("Text file containing example data"), Some("file"),
                              Some(95.0), None)

  /** `file_search_provider`: the example file when the query mentions "file" in any case. */
  function FileSearch(query: string, filters: Filters): (r: seq<Result>)
    ensures r == [] || r == [ExampleFile]
    ensures r != [] <==> Contains(Lower(query), "file")
  {
    if Contains(Lower(query), "file") then [ExampleFile] else []
  }

  /** The file provider ignores case. */
  lemma FileSearchIgnoresCase(query: string, filters: Filters)
    ensures FileSearch(query, filters) == FileSearch(Lower(query), filters)
  {
    LowerIdempotent(query);
  }

  function ContentTitle(query: string): string {
    "Content matching \"" + query + "\""
  }

  /** `content_search_provider`: one result for a query longer than two characters. */
  function ContentSearch(query: string, filters: Filters): (r: seq<Result>)
    ensures |r| == if |query| > 2 then 1 else 0
    ensures forall x :: x in r ==> x.kind == Some("content") && x.score == Some(80.0) && x.title.Some?
  {
    if |query| > 2 then
      [Result(Some(ContentTitle(query)),
              Some("Found " + NatToStr(|query|) + " matches in various documents"),
              Some("content"), Some(80.0), None)]
    else []
  }

  /** The content provider's result names the query in its title. */
  lemma ContentSearchNamesQuery(query: string, filters: Filters)
    requires |query| > 2
    ensures Contains(ContentSearch(query, filters)[0].title.value, query)
  {
    ContainsSelf(query);
    ContainsInAppend("Content matching \"", query, query);
    ContainsInAppend("Content matching \"" + query, "\"", query);
  }

  /** With the two sample providers registered, the count is one per provider that matched. */
  lemma SampleProvidersCount(query: string, filters: Filters)
    ensures |Aggregate(["file", "content"], [Returned(FileSearch(query, filters)), Returned(ContentSearch(query, filters))])|
            == (if Contains(Lower(query), "file") then 1 else 0) + (if |query| > 2 then 1 else 0)
  {
    var os := [Returned(FileSearch(query, filters)), Returned(ContentSearch(query, filters))];
    AggregateCount(["file", "content"], os);
    assert os[..1][..0] == [];
    assert Total(os) == Total(os[..1]) + |ContentSearch(query, filters)|;
  }

  // ---------------------------------------------------------------------
  // How a result is shown

  /** The labels of a `SearchResultItem`. */
  datatype ResultView = ResultView(title: string, description: Option<string>, providerLabel: Option<string>,
                                   scoreShown: bool)

  /** `SearchResultItem._setup_ui`: a missing title reads "Untitled"; empty description and provider are not shown. */
  function View(r: Result): (v: ResultView)
    ensures r.title.None? ==> v.title == "Untitled"
    ensures v.description.Some? <==> r.description.Some? && r.description.value != ""
    ensures v.providerLabel.Some? <==> r.provider.Some? && r.provider.value != ""
    ensures v.scoreShown <==> r.score.Some? && r.score.value > 0.0
  {
    ResultView(
      if r.title.Some? then r.title.value else "Untitled",
      if r.description.Some? && r.description.value != "" then r.description else None,
      if r.provider.Some? && r.provider.value != "" then Some(Upper(r.provider.value)) else None,
      r.score.Some? && r.score.value > 0.0)
  }

  /** Every aggregated result shows its provider's name upper-cased, when that name is not empty. */
  lemma AggregateShowsProvider(names: seq<string>, outcomes: seq<Outcome>)
    requires |names| == |outcomes|
    requires forall n :: n in names ==> n != ""
    ensures forall r :: r in Aggregate(names, outcomes) ==>
              r.provider.Some? && View(r).providerLabel == Some(Upper(r.provider.value))
  {
    AggregateTagged(names, outcomes);
  }

  /** `SimpleGlobalSearch._perform_search`: the stripped query, when there is one. */
  function SimpleSearch(text: string): (q: Option<string>)
    ensures q.Some? ==> q.value == Strip(text) && q.value != ""
  {
    var s := Strip(text);
    if s != "" then Some(s) else None
  }

  /** The simple box stays silent exactly on blank input. */
  lemma SimpleSearchSilentIff(text: string)
    ensures SimpleSearch(text).None? <==> AllSpace(text)
  {
    StripEmptyIff(text);
  }

  // ---------------------------------------------------------------------
  // The type filter

  /** The first combo entry whose data is `name`, as the loop of `remove_search_provider` finds it. */
  function FirstWithData(items: seq<FilterItem>, name: string): (r: Option<nat>)
    ensures r.Some? ==> r.value < |items| && items[r.value].data == Some(name)
    ensures r.Some? ==> forall k :: 0 <= k < r.value ==> items[k].data != Some(name)
    ensures r.None? <==> forall k :: 0 <= k < |items| ==> items[k].data != Some(name)
  {
    if items == [] then None
    else if items[0].data == Some(name) then Some(0)
    else match FirstWithData(items[1..], name)
      case None => None
      case Some(i) => Some(i + 1)
  }

  /** The providers after `add_search_provider(name)`: a known name keeps its place. */
  function AddedProviders(providers: seq<string>, name: string): (r: seq<string>)
    ensures name in r
    ensures forall n :: n in r <==> n in providers || n == name
  {
    if name in providers then providers else providers + [name]
  }

  /** The combo entries after `remove_search_provider(name)`: the first entry for that name goes. */
  function RemovedItems(items: seq<FilterItem>, name: string): (r: seq<FilterItem>)
    ensures |r| == if FirstWithData(items, name).Some? then |items| - 1 else |items|
  {
    match FirstWithData(items, name)
    case None => items
    case Some(i) => DeleteAt(items, i)
  }

  /** The current index once the entry at `removed` is gone: Qt keeps the current entry, or the one in its place. */
  function IndexAfterRemoval(current: nat, removed: nat, count: nat): nat
    requires count >= 1
  {
    if removed < current then current - 1
    else if removed == current then (if current < count then current else count - 1)
    else current
  }

  /** Adding a new provider and removing it again gives back the providers and, when no entry held its name, the entries. */
  lemma AddRemoveRoundTrip(providers: seq<string>, items: seq<FilterItem>, name: string)
    requires name !in providers
    requires forall k :: 0 <= k < |items| ==> items[k].data != Some(name)
    ensures RemoveFirst(AddedProviders(providers, name), name) == providers
    ensures RemovedItems(items + [FilterItem(TitleCase(name), Some(name))], name) == items
  {
    RemoveFirstAfter(providers, name);
    var added := items + [FilterItem(TitleCase(name), Some(name))];
    assert FirstWithData(added, name) == Some(|items|) by {
      var f := FirstWithData(added, name);
      assert added[|items|].data == Some(name);
      assert f.Some?;
      assert forall k :: 0 <= k < |items| ==> added[k] == items[k];
    }
    assert added[..|items|] == items;
  }

  /** Re-adding a provider lists it twice in the type filter; removing it then leaves an entry for a provider that is gone. */
  lemma ReAddRemoveLeavesEntry()
    ensures var items := [AllItem, FilterItem("X", Some("x")), FilterItem("X", Some("x"))];
            AddedProviders(AddedProviders([], "x"), "x") == ["x"]
            && RemoveFirst(["x"], "x") == []
            && RemovedItems(items, "x") == [AllItem, FilterItem("X", Some("x"))]
  {
    var items := [AllItem, FilterItem("X", Some("x")), FilterItem("X", Some("x"))];
    assert items[1..][0].data == Some("x");
    assert FirstWithData(items, "x") == Some(1);
  }

  // ---------------------------------------------------------------------
  // The widget

  /**
   * `GlobalSearchWidget(placeholder)` as written: `_setup_ui` connects the
   * type filter's `currentDataChanged`, a signal `QComboBox` does not have,
   * so the constructor raises `AttributeError` and no widget is made.
   */
  method NewGlobalSearchWidget(placeholder: string) returns (attributeError: bool)
    ensures attributeError
  {
    attributeError := true;
  }

  /**
   * The search widget as intended: the type filter's `currentIndexChanged`
   * reaches `_on_filter_changed`, as the filter checkboxes' `toggled` does.
   */
  class GlobalSearchWidget {
    var placeholder: string
    /** The keys of `_search_providers`, in registration order. */
    var providers: seq<string>
    /** The type combo box's entries. */
    var filterItems: seq<FilterItem>
    var typeIndex: nat
    var caseSensitive: bool
    var wholeWords: bool
    var regex: bool
    var filtersShown: bool
    /** The input's text, which `_current_query` follows. */
    var query: string
    var results: seq<Result>
    var status: string
    var clearShown: bool
    /** Whether the debounce timer is running. */
    var timerPending: bool

    predicate Valid()
      reads this
    {
      Distinct(providers) && |filterItems| >= 1 && filterItems[0] == AllItem && typeIndex < |filterItems|
      && clearShown == (query != "")
    }

    /** `_get_current_filters`. */
    function CurrentFilters(): (f: Filters)
      reads this
      requires typeIndex < |filterItems|
      ensures f.kind == filterItems[typeIndex].data
      ensures f.caseSensitive == caseSensitive && f.wholeWords == wholeWords && f.regex == regex
    {
      Filters(filterItems[typeIndex].data, caseSensitive, wholeWords, regex)
    }

    constructor Intended(placeholder: string)
      ensures Valid()
      ensures this.placeholder == placeholder && providers == [] && filterItems == [AllItem] && typeIndex == 0
      ensures !caseSensitive && !wholeWords && !regex && !filtersShown
      ensures query == "" && results == [] && status == IdleStatus && !timerPending
    {
      this.placeholder := placeholder;
      providers := [];
      filterItems := [AllItem];
      typeIndex := 0;
      caseSensitive, wholeWords, regex := false, false, false;
      filtersShown := false;
      query := "";
      results := [];
      status := IdleStatus;
      clearShown := false;
      timerPending := false;
    }

    /** `_toggle_filters`. */
    method ToggleFilters(show: bool)
      modifies this`filtersShown
      ensures filtersShown == show
    {
      filtersShown := show;
    }

    /** `set_placeholder`. */
    method SetPlaceholder(p: string)
      modifies this`placeholder
      ensures placeholder == p
    {
      placeholder := p;
    }

    /**
     * `_on_search_text_changed`: typing starts the debounce timer; emptying
     * the box clears the search. Returns how many times `search_cleared`
     * was emitted.
     */
    method SearchTextChanged(text: string) returns (cleared: nat)
      requires Valid()
      modifies this`query, this`clearShown, this`timerPending, this`results, this`status
      ensures Valid()
      ensures query == text
      ensures text != "" ==> timerPending && results == old(results) && status == old(status) && cleared == 0
      ensures text == "" ==> timerPending == old(timerPending) && results == [] && status == IdleStatus && cleared == 1
      decreases 0, 2
    {
      query := text;
      if text != "" {
        clearShown := true;
        timerPending := true;
        cleared := 0;
      } else {
        clearShown := false;
        cleared := ClearSearch();
      }
    }

    /**
     * `clear_search`. Clearing a non-empty input emits `textChanged("")`,
     * whose handler clears the search once more before this call goes on,
     * so `search_cleared` is emitted twice.
     */
    method ClearSearch() returns (cleared: nat)
      requires Valid()
      modifies this`query, this`clearShown, this`timerPending, this`results, this`status
      ensures Valid()
      ensures query == "" && results == [] && status == IdleStatus && timerPending == old(timerPending)
      ensures cleared == if old(query) != "" then 2 else 1
      decreases if query != "" then 1 else 0, 1
    {
      var inner := 0;
      if query != "" {
        inner := SearchTextChanged("");
      }
      results := [];
      query := "";
      clearShown := false;
      status := IdleStatus;
      cleared := inner + 1;
    }

    /** `clear_search` with the input cleared without re-entering the text handler: one `search_cleared`. */
    method ClearSearchIntended() returns (cleared: nat)
      requires Valid()
      modifies this`query, this`clearShown, this`results, this`status
      ensures Valid()
      ensures query == "" && results == [] && status == IdleStatus
      ensures cleared == 1
    {
      results := [];
      query := "";
      clearShown := false;
      status := IdleStatus;
      cleared := 1;
    }

    /** One pass of the provider loop: the provider's results, tagged, appended one by one. */
    method Collect(name: string, o: Outcome) returns (count: nat)
      modifies this`results
      ensures results == old(results) + Contribution(name, o)
      ensures count == Count(o)
    {
      count := 0;
      if o.Returned? {
        var rs := o.results;
        var c := Contribution(name, o);
        var i := 0;
        while i < |rs|
          invariant 0 <= i <= |rs|
          invariant results == old(results) + c[..i]
          invariant count == i
        {
          results := results + [Tag(rs[i], name)];
          assert c[..i + 1] == c[..i] + [c[i]];
          count := count + 1;
          i := i + 1;
        }
        assert c[..|rs|] == c;
      }
    }

    /** The provider loop of `_perform_search`, on emptied results: returns `total_results`. */
    method CollectAll(outcomes: seq<Outcome>) returns (total: nat)
      requires |outcomes| == |providers| && results == []
      modifies this`results
      ensures results == Aggregate(providers, outcomes)
      ensures total == Total(outcomes) == |results|
    {
      total := 0;
      var i := 0;
      while i < |providers|
        invariant 0 <= i <= |providers|
        invariant results == Aggregate(providers[..i], outcomes[..i])
        invariant total == Total(outcomes[..i])
      {
        var n := Collect(providers[i], outcomes[i]);
        AggregateStep(providers, outcomes, i);
        total := total + n;
        i := i + 1;
      }
      assert providers[..i] == providers && outcomes[..i] == outcomes;
      AggregateCount(providers, outcomes);
    }

    /**
     * `_perform_search`: a blank query changes nothing; otherwise the
     * results are every provider's, in registration order, the status
     * counts them, and `search_performed` carries the stripped query and
     * the filters.
     */
    method PerformSearch(outcomes: seq<Outcome>) returns (emitted: Option<Performed>)
      requires Valid() && |outcomes| == |providers|
      modifies this`results, this`status
      ensures Valid()
      ensures Strip(query) == "" ==> results == old(results) && status == old(status) && emitted == None
      ensures Strip(query) != "" ==>
                results == Aggregate(providers, outcomes)
                && |results| == Total(outcomes)
                && status == FoundStatus(Total(outcomes))
                && emitted == Some(Performed(Strip(query), CurrentFilters()))
    {
      var q := Strip(query);
      emitted := None;
      if q != "" {
        var filters := CurrentFilters();
        RunProviders(outcomes);
        emitted := Some(Performed(q, filters));
      }
    }

    /** The non-blank part of `_perform_search`: results emptied, refilled from the providers, and counted. */
    method RunProviders(outcomes: seq<Outcome>)
      requires |outcomes| == |providers|
      modifies this`results, this`status
      ensures results == Aggregate(providers, outcomes) && |results| == Total(outcomes)
      ensures status == FoundStatus(Total(outcomes))
    {
      results := [];
      status := SearchingStatus;
      var total := CollectAll(outcomes);
      status := FoundStatus(total);
    }

    /** The debounce timer fires: the pending search runs. */
    method TimerFires(outcomes: seq<Outcome>) returns (emitted: Option<Performed>)
      requires Valid() && |outcomes| == |providers|
      modifies this`results, this`status, this`timerPending
      ensures Valid() && !timerPending
      ensures !old(timerPending) ==> results == old(results) && status == old(status) && emitted == None
      ensures old(timerPending) && Strip(query) != "" ==>
                results == Aggregate(providers, outcomes) && emitted.Some?
    {
      emitted := None;
      if timerPending {
        timerPending := false;
        emitted := PerformSearch(outcomes);
      }
    }

    /** `_perform_immediate_search` (Enter): the timer stops and the search runs now. */
    method PerformImmediateSearch(outcomes: seq<Outcome>) returns (emitted: Option<Performed>)
      requires Valid() && |outcomes| == |providers|
      modifies this`results, this`status, this`timerPending
      ensures Valid() && !timerPending
      ensures Strip(query) == "" ==> results == old(results) && status == old(status) && emitted == None
      ensures Strip(query) != "" ==>
                results == Aggregate(providers, outcomes) && status == FoundStatus(Total(outcomes))
                && emitted == Some(Performed(Strip(query), CurrentFilters()))
    {
      timerPending := false;
      emitted := PerformSearch(outcomes);
    }

    /** `_on_filter_changed`: the search runs again only when there is a query. */
    method FilterChanged(outcomes: seq<Outcome>) returns (emitted: Option<Performed>)
      requires Valid() && |outcomes| == |providers|
      modifies this`results, this`status
      ensures Valid()
      ensures query == "" ==> results == old(results) && status == old(status) && emitted == None
      ensures Strip(query) != "" ==>
                results == Aggregate(providers, outcomes)
                && emitted == Some(Performed(Strip(query), CurrentFilters()))
    {
      emitted := None;
      if query != "" {
        emitted := PerformSearch(outcomes);
      }
    }

    /** Whether a filter box is ticked. */
    function FlagValue(flag: Flag): bool
      reads this
    {
      match flag
      case CaseSensitive => caseSensitive
      case WholeWords => wholeWords
      case Regex => regex
    }

    /** `QCheckBox.setChecked` on one filter box. */
    method SetFlagValue(flag: Flag, on: bool)
      requires Valid()
      modifies this`caseSensitive, this`wholeWords, this`regex
      ensures Valid()
      ensures caseSensitive == (if flag == CaseSensitive then on else old(caseSensitive))
      ensures wholeWords == (if flag == WholeWords then on else old(wholeWords))
      ensures regex == (if flag == Regex then on else old(regex))
    {
      match flag {
        case CaseSensitive => caseSensitive := on;
        case WholeWords => wholeWords := on;
        case Regex => regex := on;
      }
    }

    /** Ticking or unticking a filter box: `toggled` fires on a change and re-runs the search through `_on_filter_changed`. */
    method SetFlag(flag: Flag, on: bool, outcomes: seq<Outcome>) returns (emitted: Option<Performed>)
      requires Valid() && |outcomes| == |providers|
      modifies this`caseSensitive, this`wholeWords, this`regex, this`results, this`status
      ensures Valid()
      ensures caseSensitive == (if flag == CaseSensitive then on else old(caseSensitive))
      ensures wholeWords == (if flag == WholeWords then on else old(wholeWords))
      ensures regex == (if flag == Regex then on else old(regex))
      ensures old(FlagValue(flag)) == on ==> results == old(results) && status == old(status) && emitted == None
      ensures old(FlagValue(flag)) != on && Strip(query) != "" ==>
                results == Aggregate(providers, outcomes)
                && emitted == Some(Performed(Strip(query), CurrentFilters()))
    {
      var was := FlagValue(flag);
      emitted := None;
      if was != on {
        SetFlagValue(flag, on);
        emitted := FilterChanged(outcomes);
      }
    }

    /** Picking an entry of the type filter: a new entry re-runs the search through `_on_filter_changed`. */
    method SelectType(i: nat, outcomes: seq<Outcome>) returns (emitted: Option<Performed>)
      requires Valid() && |outcomes| == |providers| && i < |filterItems|
      modifies this`typeIndex, this`results, this`status
      ensures Valid() && typeIndex == i
      ensures i == old(typeIndex) ==> results == old(results) && status == old(status) && emitted == None
      ensures i != old(typeIndex) && Strip(query) != "" ==>
                results == Aggregate(providers, outcomes)
                && emitted == Some(Performed(Strip(query), CurrentFilters()))
    {
      emitted := None;
      if i != typeIndex {
        typeIndex := i;
        emitted := FilterChanged(outcomes);
      }
    }

    /** `add_search_provider`: a known name keeps its place; the type filter gains an entry either way. */
    method AddSearchProvider(name: string)
      requires Valid()
      modifies this`providers, this`filterItems
      ensures Valid()
      ensures providers == AddedProviders(old(providers), name)
      ensures filterItems == old(filterItems) + [FilterItem(TitleCase(name), Some(name))]
    {
      if name !in providers {
        DistinctSnoc(providers, name);
        providers := providers + [name];
      }
      filterItems := filterItems + [FilterItem(TitleCase(name), Some(name))];
    }

    /**
     * `remove_search_provider`: an unknown name changes nothing; a known one
     * leaves the providers and loses the first type-filter entry for it,
     * the current entry moving as Qt moves it.
     */
    method RemoveSearchProvider(name: string)
      requires Valid()
      modifies this`providers, this`filterItems, this`typeIndex
      ensures Valid()
      ensures name !in old(providers) ==>
                providers == old(providers) && filterItems == old(filterItems) && typeIndex == old(typeIndex)
      ensures name in old(providers) ==>
                providers == RemoveFirst(old(providers), name)
                && (forall n :: n in providers <==> n in old(providers) && n != name)
                && filterItems == RemovedItems(old(filterItems), name)
      ensures name in old(providers) && FirstWithData(old(filterItems), name).Some? ==>
                typeIndex == IndexAfterRemoval(old(typeIndex), FirstWithData(old(filterItems), name).value,
                                               |filterItems|)
    {
      if name in providers {
        RemoveFirstDistinct(providers, name);
        providers := RemoveFirst(providers, name);
        var i := 0;
        while i < |filterItems| && filterItems[i].data != Some(name)
          invariant 0 <= i <= |filterItems|
          invariant forall k :: 0 <= k < i ==> filterItems[k].data != Some(name)
        {
          i := i + 1;
        }
        if i < |filterItems| {
          assert FirstWithData(filterItems, name) == Some(i);
          RemoveItem(i);
        }
      }
    }

    /** `QComboBox.removeItem`. */
    method RemoveItem(i: nat)
      requires Valid() && 1 <= i < |filterItems|
      modifies this`filterItems, this`typeIndex
      ensures Valid()
      ensures filterItems == DeleteAt(old(filterItems), i)
      ensures typeIndex == IndexAfterRemoval(old(typeIndex), i, |filterItems|)
    {
      filterItems := DeleteAt(filterItems, i);
      typeIndex := IndexAfterRemoval(typeIndex, i, |filterItems|);
    }
  }
}
