/**
 * The command palette: a modal popup listing the registered commands,
 * filtered as the user types, grouped under category separators, navigated
 * with the arrow keys (wrapping at both ends) and executed with Enter or a
 * click. Three variants add a default command set, callbacks registered by
 * action name, and a debounced search ranked by a relevance score.
 */
module CommandPalette {
  import opened Common
  import PyDict
  import opened StableSort
  import BasePopup

  /** A command's `data` dictionary; values are opaque identifiers. */
  type Data = map<string, string>

  datatype Command = Command(name: string, description: string, shortcut: string, icon: Option<string>,
                             data: Data, category: string, searchText: string)

  const PaletteWidth := 600
  const PaletteHeight := 400

  /** The search text is "name description category", lowercased. */
  predicate Indexed(c: Command) {
    c.searchText == Lower(c.name + " " + c.description + " " + c.category)
  }

  /** Lowercasing the joined fields lowercases each field. */
  lemma LowerFields(a: string, b: string, c: string)
    ensures Lower(a + " " + b + " " + c) == Lower(a) + " " + Lower(b) + " " + Lower(c)
  {
    var sp := " ";
    assert Lower(sp) == sp;
    LowerAppend(a, sp);
    LowerAppend(a + sp, b);
    LowerAppend(a + sp + b, sp);
    LowerAppend(a + sp + b + sp, c);
  }

  /** The record `add_command` stores: missing data becomes `{}`. */
  function MakeCommand(name: string, description: string, shortcut: string, icon: Option<string>,
                       data: Option<Data>, category: string): (c: Command)
    ensures c.name == name && c.description == description && c.shortcut == shortcut
    ensures c.icon == icon && c.category == category
    ensures c.data == if data.Some? then data.value else map[]
    ensures Indexed(c)
  {
    Command(name, description, shortcut, icon, if data.Some? then data.value else map[], category,
            Lower(name + " " + description + " " + category))
  }

  /** A one-word query occurs in the search text exactly when it occurs in the name, description or category. */
  lemma SearchTextFields(c: Command, q: string)
    requires Indexed(c) && IsWord(q)
    ensures Contains(c.searchText, q) <==>
            Contains(Lower(c.name), q) || Contains(Lower(c.description), q) || Contains(Lower(c.category), q)
  {
    forall k | 0 <= k < |q| ensures q[k] != ' ' {
      assert !IsSpace(q[k]);
    }
    assert ' ' !in q;
    var n, d, g := Lower(c.name), Lower(c.description), Lower(c.category);
    LowerFields(c.name, c.description, c.category);
    ContainsAcrossSeparator(n, ' ', d, q);
    ContainsAcrossSeparator(n + " " + d, ' ', g, q);
  }

  // ---------------------------------------------------------------------
  // Filtering

  /** The typed text as the filter uses it: lowercased and stripped. */
  function Query(text: string): (q: string)
    ensures |q| <= |text|
    ensures q == [] || (!IsSpace(q[0]) && !IsSpace(q[|q| - 1]))
  {
    Strip(Lower(text))
  }

  lemma QueryOfBlank()
    ensures Query("") == ""
  {
  }

  /** The commands whose search text contains `q`, in order. */
  function Matching(cmds: seq<Command>, q: string): (r: seq<Command>)
    ensures |r| <= |cmds|
  {
    if cmds == [] then []
    else (if Contains(cmds[0].searchText, q) then [cmds[0]] else []) + Matching(cmds[1..], q)
  }

  lemma {:induction false} MatchingMembers(cmds: seq<Command>, q: string)
    ensures forall c :: c in Matching(cmds, q) <==> c in cmds && Contains(c.searchText, q)
  {
    if cmds != [] {
      MatchingMembers(cmds[1..], q);
      assert cmds == [cmds[0]] + cmds[1..];
    }
  }

  /** A blank query keeps every command; any other keeps those whose search text contains it. */
  function Candidates(cmds: seq<Command>, q: string): (r: seq<Command>)
    ensures q == "" ==> r == cmds
  {
    if q == "" then cmds else Matching(cmds, q)
  }

  /** Since every string contains the empty one, both branches keep exactly the matching commands. */
  lemma CandidatesMembers(cmds: seq<Command>, q: string)
    ensures forall c :: c in Candidates(cmds, q) <==> c in cmds && Contains(c.searchText, q)
  {
    if q == "" {
      forall c | c in cmds ensures Contains(c.searchText, q) {
        ContainsEmpty(c.searchText);
      }
    } else {
      MatchingMembers(cmds, q);
    }
  }

  /** Names starting with the query come first (rank 0), then by lowercased name. */
  function RankKey(c: Command, q: string): Key {
    Key(if q <= Lower(c.name) then 0 else 1, Lower(c.name))
  }

  function Keyed(cmds: seq<Command>, q: string): (r: seq<(Key, Command)>)
    ensures |r| == |cmds|
  {
    if cmds == [] then [] else [(RankKey(cmds[0], q), cmds[0])] + Keyed(cmds[1..], q)
  }

  /** Each command is paired with its own rank key. */
  lemma {:induction false} KeyedAt(cmds: seq<Command>, q: string)
    ensures var r := Keyed(cmds, q);
      (forall i :: 0 <= i < |r| ==> r[i] == (RankKey(cmds[i], q), cmds[i])) && KeyedByRank(r, q)
  {
    if cmds != [] {
      KeyedAt(cmds[1..], q);
    }
  }

  /** The list `_filter_commands` shows for query `q`. */
  function FilterOrder(cmds: seq<Command>, q: string): seq<Command> {
    Items(Sort(Keyed(Candidates(cmds, q), q)))
  }

  /**
   * The filtered list is a permutation of the matching commands, the ones
   * whose name starts with the query come first, and within each group the
   * lowercased names ascend.
   */
  lemma FilterOrderSpec(cmds: seq<Command>, q: string)
    ensures var r := FilterOrder(cmds, q);
      && multiset(r) == multiset(Candidates(cmds, q))
      && (forall c :: c in r <==> c in cmds && Contains(c.searchText, q))
      && RankOrdered(r, q)
      && (forall i, j :: 0 <= i < j < |r| && q <= Lower(r[j].name) ==> q <= Lower(r[i].name))
  {
    FilterOrderPermutation(cmds, q);
    FilterOrderMembers(cmds, q);
    KeyedAt(Candidates(cmds, q), q);
    FilterOrderRanked(Keyed(Candidates(cmds, q), q), q);
    PrefixMatchesFirst(FilterOrder(cmds, q), q);
  }

  lemma FilterOrderPermutation(cmds: seq<Command>, q: string)
    ensures multiset(FilterOrder(cmds, q)) == multiset(Candidates(cmds, q))
  {
    var s := Keyed(Candidates(cmds, q), q);
    SortItemsPermutation(s);
    KeyedAt(Candidates(cmds, q), q);
    assert Items(s) == Candidates(cmds, q);
  }

  lemma FilterOrderMembers(cmds: seq<Command>, q: string)
    ensures forall c :: c in FilterOrder(cmds, q) <==> c in cmds && Contains(c.searchText, q)
  {
    var r := FilterOrder(cmds, q);
    FilterOrderPermutation(cmds, q);
    CandidatesMembers(cmds, q);
    forall c ensures c in r <==> c in cmds && Contains(c.searchText, q) {
      assert c in r <==> c in multiset(r);
      assert c in Candidates(cmds, q) <==> c in multiset(Candidates(cmds, q));
    }
  }

  /** Each entry is keyed by its command's rank. */
  predicate KeyedByRank(s: seq<(Key, Command)>, q: string) {
    forall i :: 0 <= i < |s| ==> s[i].0 == RankKey(s[i].1, q)
  }

  /** Ranks ascend, and within a rank the lowercased names ascend. */
  predicate RankOrdered(r: seq<Command>, q: string) {
    forall i, j :: 0 <= i < j < |r| ==> KeyLe(RankKey(r[i], q), RankKey(r[j], q))
  }

  /** Sorting entries keyed by rank orders their commands by rank. */
  lemma FilterOrderRanked(s: seq<(Key, Command)>, q: string)
    requires KeyedByRank(s, q)
    ensures RankOrdered(Items(Sort(s)), q)
  {
    var sorted := Sort(s);
    var r := Items(sorted);
    SortPermutation(s);
    SortSorted(s);
    forall k | 0 <= k < |sorted| ensures sorted[k].0 == RankKey(r[k], q) {
      assert sorted[k] in multiset(s);
    }
  }

  /** In a rank-ordered list, every name starting with the query comes before every other. */
  lemma PrefixMatchesFirst(r: seq<Command>, q: string)
    requires RankOrdered(r, q)
    ensures forall i, j :: 0 <= i < j < |r| && q <= Lower(r[j].name) ==> q <= Lower(r[i].name)
  {
    forall i, j | 0 <= i < j < |r| && q <= Lower(r[j].name) ensures q <= Lower(r[i].name) {
      assert KeyLe(RankKey(r[i], q), RankKey(r[j], q));
    }
  }

  /** A blank query lists every command, sorted by lowercased name. */
  lemma BlankQueryListsAll(cmds: seq<Command>)
    ensures var r := FilterOrder(cmds, Query(""));
      && multiset(r) == multiset(cmds)
      && forall i, j :: 0 <= i < j < |r| ==> StrLe(Lower(r[i].name), Lower(r[j].name))
  {
    QueryOfBlank();
    FilterOrderSpec(cmds, "");
  }

  /** Commands with the same rank and lowercased name keep their registration order. */
  lemma FilterTiesKeepOrder(cmds: seq<Command>, q: string, k: Key)
    ensures var s := Keyed(Candidates(cmds, q), q);
      Items(WithKey(Sort(s), k)) == Items(WithKey(s, k))
  {
    SortStable(Keyed(Candidates(cmds, q), q), k);
  }

  // ---------------------------------------------------------------------
  // The list rows: commands with a separator before each new category

  datatype Row = CommandRow(cmd: Command) | SeparatorRow(category: string)

  /** The category the display loop remembers after `c`. */
  function NextCategory(c: Command, current: Option<string>): Option<string> {
    if c.category != "" && Some(c.category) != current then Some(c.category) else current
  }

  /** A separator goes before `c` when it opens a new category after an earlier one. */
  predicate SeparatorBefore(c: Command, current: Option<string>) {
    c.category != "" && Some(c.category) != current && current.Some?
  }

  function DisplayRows(f: seq<Command>, current: Option<string>): (r: seq<Row>)
    ensures |f| <= |r| <= 2 * |f|
    ensures current.None? && f != [] ==> r[0] == CommandRow(f[0])
  {
    if f == [] then []
    else
      (if SeparatorBefore(f[0], current) then [SeparatorRow(f[0].category)] else [])
      + [CommandRow(f[0])] + DisplayRows(f[1..], NextCategory(f[0], current))
  }

  /** The commands among the rows, in order. */
  function CommandsOf(rows: seq<Row>): seq<Command> {
    if rows == [] then []
    else (if rows[0].CommandRow? then [rows[0].cmd] else []) + CommandsOf(rows[1..])
  }

  lemma {:induction false} CommandsOfAppend(a: seq<Row>, b: seq<Row>)
    ensures CommandsOf(a + b) == CommandsOf(a) + CommandsOf(b)
  {
    if a == [] {
      assert a + b == b;
    } else {
      var h := if a[0].CommandRow? then [a[0].cmd] else [];
      CommandsOfAppend(a[1..], b);
      assert (a + b)[0] == a[0];
      assert (a + b)[1..] == a[1..] + b;
      assert CommandsOf(a + b) == h + CommandsOf(a[1..] + b);
      assert CommandsOf(a) == h + CommandsOf(a[1..]);
      ConcatAssoc(h, CommandsOf(a[1..]), CommandsOf(b));
    }
  }

  /** Dropping the separators gives back the filtered commands. */
  lemma {:induction false} RowsListTheCommands(f: seq<Command>, current: Option<string>)
    ensures CommandsOf(DisplayRows(f, current)) == f
  {
    if f != [] {
      var sep := if SeparatorBefore(f[0], current) then [SeparatorRow(f[0].category)] else [];
      var rest := DisplayRows(f[1..], NextCategory(f[0], current));
      RowsListTheCommands(f[1..], NextCategory(f[0], current));
      CommandsOfAppend(sep + [CommandRow(f[0])], rest);
      CommandsOfAppend(sep, [CommandRow(f[0])]);
      assert CommandsOf(sep) == [];
      assert f == [f[0]] + f[1..];
    }
  }

  /** Every separator names a non-empty category and heads a command of that category. */
  predicate SeparatorsHead(rows: seq<Row>) {
    forall p :: 0 <= p < |rows| && rows[p].SeparatorRow? ==>
      p + 1 < |rows| && rows[p + 1].CommandRow? && rows[p].category != "" &&
      rows[p + 1].cmd.category == rows[p].category
  }

  lemma {:induction false} SeparatorsHeadTheirCategory(f: seq<Command>, current: Option<string>)
    ensures SeparatorsHead(DisplayRows(f, current))
  {
    if f != [] {
      var rows := DisplayRows(f, current);
      var sep := if SeparatorBefore(f[0], current) then [SeparatorRow(f[0].category)] else [];
      var rest := DisplayRows(f[1..], NextCategory(f[0], current));
      SeparatorsHeadTheirCategory(f[1..], NextCategory(f[0], current));
      var m := |sep| + 1;
      assert rows == sep + [CommandRow(f[0])] + rest;
      forall p | 0 <= p < |rows| && rows[p].SeparatorRow?
        ensures p + 1 < |rows| && rows[p + 1].CommandRow? && rows[p].category != "" &&
                rows[p + 1].cmd.category == rows[p].category
      {
        if p < m {
          assert sep != [] && p == 0;
          assert rows[0] == sep[0] && rows[1] == CommandRow(f[0]);
        } else {
          assert rows[p] == rest[p - m];
          assert p - m + 1 < |rest| && rest[p - m + 1].CommandRow?;
          assert rows[p + 1] == rest[p + 1 - m];
        }
      }
    }
  }

  lemma DisplayRowsStep(f: seq<Command>, i: nat, current: Option<string>)
    requires i < |f|
    ensures DisplayRows(f[i..], current) ==
      (if SeparatorBefore(f[i], current) then [SeparatorRow(f[i].category)] else [])
      + [CommandRow(f[i])] + DisplayRows(f[i + 1..], NextCategory(f[i], current))
  {
    assert f[i..][1..] == f[i + 1..];
  }

  /** Builds the rows the way `_update_commands_display` adds list items. */
  method BuildRows(f: seq<Command>) returns (rows: seq<Row>)
    ensures rows == DisplayRows(f, None)
  {
    rows := [];
    var current: Option<string> := None;
    var i := 0;
    while i < |f|
      invariant 0 <= i <= |f|
      invariant rows + DisplayRows(f[i..], current) == DisplayRows(f, None)
    {
      var c := f[i];
      DisplayRowsStep(f, i, current);
      ghost var rest := DisplayRows(f[i + 1..], NextCategory(c, current));
      var added: seq<Row> := [];
      if c.category != "" && Some(c.category) != current {
        if current.Some? {
          added := [SeparatorRow(c.category)];
        }
        current := Some(c.category);
      }
      added := added + [CommandRow(c)];
      ConcatAssoc(rows, added, rest);
      rows := rows + added;
      i := i + 1;
    }
    assert f[i..] == [];
  }

  // ---------------------------------------------------------------------
  // Keyboard navigation

  /** Down: the next row, wrapping from the last row to the first. */
  function NextRow(row: int, count: int): (r: int)
    requires 0 < count && -1 <= row < count
    ensures 0 <= r < count
  {
    if row < count - 1 then row + 1 else 0
  }

  /** Up: the previous row, wrapping from the first row (or none) to the last; it undoes Down. */
  function PrevRow(row: int, count: int): (r: int)
    requires 0 < count && -1 <= row < count
    ensures 0 <= r < count
  {
    if row > 0 then row - 1 else count - 1
  }

  /** Up undoes Down and Down undoes Up. */
  lemma WrapInverse(row: int, count: int)
    requires 0 <= row < count
    ensures PrevRow(NextRow(row, count), count) == row
    ensures NextRow(PrevRow(row, count), count) == row
  {
  }


  // ---------------------------------------------------------------------
  // Scored search

  /** Name relevance: 100 for the exact name, 80 for a prefix, 60 for a substring. */
  function NameScore(name: string, q: string): (s: nat)
    ensures s > 0 <==> Contains(name, q)
    ensures s >= 80 <==> q <= name
    ensures s == 100 <==> q == name
    ensures s <= 100
  {
    if q == name then ContainsSelf(name); 100
    else if q <= name then 80
    else if Contains(name, q) then 60
    else 0
  }

  /** Ten points per query word found in the name, five per word found in the description. */
  function WordsScore(words: seq<string>, name: string, description: string): (s: nat)
    ensures s <= 15 * |words|
  {
    if words == [] then 0
    else
      (if Contains(name, words[0]) then 10 else 0) + (if Contains(description, words[0]) then 5 else 0)
      + WordsScore(words[1..], name, description)
  }

  /** `_calculate_search_score` for an already lowercased and stripped query. */
  function SearchScore(c: Command, q: string): (s: nat)
    ensures q == Lower(c.name) ==> s >= 100
    ensures q <= Lower(c.name) ==> s >= 80
    ensures Contains(Lower(c.name), q) ==> s >= 60
    ensures Contains(Lower(c.description), q) ==> s >= 30
    ensures Contains(Lower(c.category), q) ==> s >= 20
  {
    NameScore(Lower(c.name), q)
    + (if Contains(Lower(c.description), q) then 30 else 0)
    + (if Contains(Lower(c.category), q) then 20 else 0)
    + WordsScore(Split(q), Lower(c.name), Lower(c.description))
  }

  /** For a one-word query the scored search keeps exactly what the plain filter keeps. */
  lemma OneWordScoreAgreesWithFilter(c: Command, q: string)
    requires Indexed(c) && IsWord(q)
    ensures SearchScore(c, q) > 0 <==> Contains(c.searchText, q)
  {
    SplitWord(q);
    SearchTextFields(c, q);
    assert [q][1..] == [];
  }

  method CalculateSearchScore(c: Command, q: string) returns (score: int)
    ensures score == SearchScore(c, q)
  {
    var name, description, category := Lower(c.name), Lower(c.description), Lower(c.category);
    score := 0;
    if q == name {
      score := score + 100;
    } else if q <= name {
      score := score + 80;
    } else if Contains(name, q) {
      score := score + 60;
    }
    if Contains(description, q) {
      score := score + 30;
    }
    if Contains(category, q) {
      score := score + 20;
    }
    var words := Split(q);
    var i := 0;
    while i < |words|
      invariant 0 <= i <= |words|
      invariant score + WordsScore(words[i..], name, description) == SearchScore(c, q)
    {
      assert words[i..][1..] == words[i + 1..];
      if Contains(name, words[i]) {
        score := score + 10;
      }
      if Contains(description, words[i]) {
        score := score + 5;
      }
      i := i + 1;
    }
  }

  /** `reverse=True` on the score: a higher score gives a smaller key. */
  function ScoreKey(score: int): Key {
    Key(0 - score, "")
  }

  /** The commands with a positive score, each keyed by its score. */
  function Scored(cmds: seq<Command>, q: string): (r: seq<(Key, Command)>)
    ensures |r| <= |cmds|
  {
    if cmds == [] then []
    else
      var s := SearchScore(cmds[0], q);
      (if s > 0 then [(ScoreKey(s), cmds[0])] else []) + Scored(cmds[1..], q)
  }

  /** Every pair is keyed by its command's score, and that score is positive. */
  predicate KeyedByScore(r: seq<(Key, Command)>, q: string) {
    forall i :: 0 <= i < |r| ==> r[i].0 == ScoreKey(SearchScore(r[i].1, q)) && SearchScore(r[i].1, q) > 0
  }

  lemma {:induction false} ScoredKeys(cmds: seq<Command>, q: string)
    ensures KeyedByScore(Scored(cmds, q), q)
  {
    if cmds != [] {
      ScoredKeys(cmds[1..], q);
      var s := SearchScore(cmds[0], q);
      var head: seq<(Key, Command)> := if s > 0 then [(ScoreKey(s), cmds[0])] else [];
      var rest := Scored(cmds[1..], q);
      assert Scored(cmds, q) == head + rest;
      assert KeyedByScore(head, q);
      forall i | 0 <= i < |head + rest|
        ensures (head + rest)[i].0 == ScoreKey(SearchScore((head + rest)[i].1, q))
        ensures SearchScore((head + rest)[i].1, q) > 0
      {
        if i >= |head| {
          assert (head + rest)[i] == rest[i - |head|];
        } else {
          assert (head + rest)[i] == head[i];
        }
      }
    }
  }

  /** Exactly the commands with a positive score are collected. */
  lemma {:induction false} ScoredMembers(cmds: seq<Command>, q: string)
    ensures forall c :: c in Items(Scored(cmds, q)) <==> c in cmds && SearchScore(c, q) > 0
  {
    if cmds != [] {
      ScoredMembers(cmds[1..], q);
      var s := SearchScore(cmds[0], q);
      var head := if s > 0 then [(ScoreKey(s), cmds[0])] else [];
      ItemsAppend(head, Scored(cmds[1..], q));
      assert cmds == [cmds[0]] + cmds[1..];
    }
  }

  lemma ScoredStep(cmds: seq<Command>, i: nat, q: string)
    requires i < |cmds|
    ensures Scored(cmds[i..], q) ==
      (if SearchScore(cmds[i], q) > 0 then [(ScoreKey(SearchScore(cmds[i], q)), cmds[i])] else [])
      + Scored(cmds[i + 1..], q)
  {
    assert cmds[i..][1..] == cmds[i + 1..];
  }

  /** The loop of `_perform_search` that collects `(score, cmd)` pairs. */
  method ScoreCommands(cmds: seq<Command>, q: string) returns (scored: seq<(Key, Command)>)
    ensures scored == Scored(cmds, q)
  {
    scored := [];
    var i := 0;
    while i < |cmds|
      invariant 0 <= i <= |cmds|
      invariant scored + Scored(cmds[i..], q) == Scored(cmds, q)
    {
      ScoredStep(cmds, i, q);
      var score := CalculateSearchScore(cmds[i], q);
      ghost var before := scored;
      if score > 0 {
        scored := scored + [(ScoreKey(score), cmds[i])];
      }
      ghost var added := if score > 0 then [(ScoreKey(score), cmds[i])] else [];
      assert scored == before + added;
      ConcatAssoc(before, added, Scored(cmds[i + 1..], q));
      i := i + 1;
    }
    assert cmds[i..] == [];
  }

  /** The list the scored search shows for a non-blank query. */
  function ScoredOrder(cmds: seq<Command>, q: string): seq<Command> {
    Items(Sort(Scored(cmds, q)))
  }

  /** The list `_perform_search` shows: all commands for a blank query, else the scored order. */
  function SearchOrder(cmds: seq<Command>, q: string): seq<Command> {
    if q == "" then cmds else ScoredOrder(cmds, q)
  }

  /**
   * The scored search shows exactly the commands with a positive score, as
   * a permutation of the collected pairs, by non-increasing score.
   */
  lemma ScoredOrderSpec(cmds: seq<Command>, q: string)
    ensures var r := ScoredOrder(cmds, q);
      && multiset(r) == multiset(Items(Scored(cmds, q)))
      && (forall c :: c in r <==> c in cmds && SearchScore(c, q) > 0)
      && (forall i, j :: 0 <= i < j < |r| ==> SearchScore(r[i], q) >= SearchScore(r[j], q))
  {
    var s := Scored(cmds, q);
    SortItemsPermutation(s);
    ScoredOrderMembers(cmds, q);
    ScoredKeys(cmds, q);
    ScoresDescend(s, q);
  }

  lemma ScoredOrderMembers(cmds: seq<Command>, q: string)
    ensures forall c :: c in ScoredOrder(cmds, q) <==> c in cmds && SearchScore(c, q) > 0
  {
    var s := Scored(cmds, q);
    SortItemsPermutation(s);
    ScoredMembers(cmds, q);
    var r := Items(Sort(s));
    forall c ensures c in r <==> c in cmds && SearchScore(c, q) > 0 {
      assert c in r <==> c in multiset(r);
      assert c in Items(s) <==> c in multiset(Items(s));
    }
  }

  /** Sorting entries keyed by score puts higher scores first. */
  lemma ScoresDescend(s: seq<(Key, Command)>, q: string)
    requires KeyedByScore(s, q)
    ensures var r := Items(Sort(s));
      forall i, j :: 0 <= i < j < |r| ==> SearchScore(r[i], q) >= SearchScore(r[j], q)
  {
    var sorted := Sort(s);
    SortPermutation(s);
    SortSorted(s);
    forall k | 0 <= k < |sorted| ensures sorted[k].0 == ScoreKey(SearchScore(sorted[k].1, q)) {
      assert sorted[k] in multiset(s);
    }
    forall i, j | 0 <= i < j < |sorted| ensures SearchScore(sorted[i].1, q) >= SearchScore(sorted[j].1, q) {
      assert KeyLe(sorted[i].0, sorted[j].0);
    }
  }

  /** Commands with equal scores keep their registration order (the sort is stable). */
  lemma ScoreTiesKeepOrder(cmds: seq<Command>, q: string, score: int)
    ensures var s := Scored(cmds, q);
      Items(WithKey(Sort(s), ScoreKey(score))) == Items(WithKey(s, ScoreKey(score)))
  {
    SortStable(Scored(cmds, q), ScoreKey(score));
  }

  /** For a one-word query the scored search and the plain filter show the same commands. */
  lemma OneWordSearchesAgree(cmds: seq<Command>, q: string)
    requires IsWord(q)
    requires forall c :: c in cmds ==> Indexed(c)
    ensures forall c :: c in ScoredOrder(cmds, q) <==> c in FilterOrder(cmds, q)
  {
    ScoredOrderSpec(cmds, q);
    FilterOrderSpec(cmds, q);
    forall c | c in cmds {
      OneWordScoreAgreesWithFilter(c, q);
    }
  }

  // ---------------------------------------------------------------------
  // The widgets

  datatype KeyPress = DownKey | UpKey | EscapeKey | OtherKey

  class CommandPaletteWidget {
    const popup: BasePopup.Popup
    /** The registered commands by name, in insertion order. */
    var commands: seq<Named<Command>>
    var filtered: seq<Command>
    /** The list widget's items. */
    var rows: seq<Row>
    /** The list widget's current row; -1 when none is selected. */
    var currentRow: int
    /** The search line edit's text. */
    var searchText: string

    ghost predicate Valid()
      reads this
    {
      PyDict.IsDict(commands) && rows == DisplayRows(filtered, None) && -1 <= currentRow < |rows|
    }

    constructor ()
      ensures Valid() && fresh(popup) && popup.modal && !popup.visible
      ensures commands == [] && filtered == [] && rows == [] && currentRow == -1 && searchText == ""
    {
      popup := new BasePopup.Popup(true);
      commands := [];
      filtered := [];
      rows := [];
      currentRow := -1;
      searchText := "";
    }

    /** Clearing the list drops the selection; the rows are rebuilt from the last filtered list. */
    method UpdateDisplay()
      modifies this`rows, this`currentRow
      ensures rows == DisplayRows(filtered, None) && currentRow == -1
    {
      rows := BuildRows(filtered);
      currentRow := -1;
    }

    /** Selects the first row of a non-empty list. */
    method SelectFirstRow()
      requires Valid()
      modifies this`currentRow
      ensures Valid()
      ensures rows != [] ==> currentRow == 0
      ensures rows == [] ==> currentRow == old(currentRow)
    {
      if |rows| > 0 {
        currentRow := 0;
      }
    }

    /** Registers (or replaces) a command; the visible list is redrawn from the previous filter. */
    method AddCommand(name: string, description: string, shortcut: string, icon: Option<string>,
                      data: Option<Data>, category: string)
      requires Valid()
      modifies this`commands, this`rows, this`currentRow
      ensures Valid()
      ensures commands == PyDict.Put(old(commands), name, MakeCommand(name, description, shortcut, icon, data, category))
      ensures currentRow == -1
    {
      PyDict.PutIsDict(commands, name, MakeCommand(name, description, shortcut, icon, data, category));
      commands := PyDict.Put(commands, name, MakeCommand(name, description, shortcut, icon, data, category));
      UpdateDisplay();
    }

    /** Only a registered name is removed; the visible list keeps the last filter's commands. */
    method RemoveCommand(name: string)
      requires Valid()
      modifies this`commands, this`rows, this`currentRow
      ensures Valid()
      ensures name in Names(old(commands)) ==> commands == PyDict.Del(old(commands), name) && currentRow == -1
      ensures name !in Names(old(commands)) ==> commands == old(commands) && currentRow == old(currentRow)
      ensures PyDict.Get(commands, name) == None
    {
      if name in Names(commands) {
        PyDict.DelIsDict(commands, name);
        commands := PyDict.Del(commands, name);
        UpdateDisplay();
      }
    }

    /**
     * `clear_commands`, as written: the commands go, but the list is redrawn
     * from the last filtered list, so the commands shown before are shown
     * again, and executing one still emits it.
     */
    method ClearCommands()
      requires Valid()
      modifies this`commands, this`rows, this`currentRow
      ensures Valid() && commands == [] && currentRow == -1
      ensures filtered == old(filtered) && rows == DisplayRows(filtered, None)
      ensures old(filtered) != [] ==> rows != [] && rows[0] == CommandRow(old(filtered)[0])
    {
      commands := [];
      UpdateDisplay();
    }

    /** `clear_commands` as evidently intended: no command and no row is left. */
    method ClearCommandsIntended()
      requires Valid()
      modifies this`commands, this`filtered, this`rows, this`currentRow
      ensures Valid() && commands == [] && filtered == [] && rows == [] && currentRow == -1
    {
      commands, filtered := [], [];
      UpdateDisplay();
    }

    /** Filters and sorts the commands, redraws the list and selects its first row. */
    method FilterCommands(text: string)
      requires Valid()
      modifies this`filtered, this`rows, this`currentRow
      ensures Valid()
      ensures filtered == FilterOrder(PyDict.Values(commands), Query(text))
      ensures currentRow == if rows != [] then 0 else -1
    {
      filtered := FilterOrder(PyDict.Values(commands), Query(text));
      UpdateDisplay();
      SelectFirstRow();
    }

    /** Editing the search field: `textChanged` fires only when the text differs. */
    method SetSearchText(text: string)
      requires Valid()
      modifies this`searchText, this`filtered, this`rows, this`currentRow
      ensures Valid() && searchText == text
      ensures old(searchText) != text ==>
        filtered == FilterOrder(PyDict.Values(commands), Query(text)) && currentRow == (if rows != [] then 0 else -1)
      ensures old(searchText) == text ==>
        filtered == old(filtered) && rows == old(rows) && currentRow == old(currentRow)
    {
      if searchText != text {
        searchText := text;
        FilterCommands(text);
      }
    }

    /**
     * Down and Up move the selection with wrap-around over all rows.
     * Escape calls `close_animated`, which as written leaves the palette
     * shown and only makes it opaque.
     */
    method HandleKeyPress(key: KeyPress)
      requires Valid()
      modifies this`currentRow, popup`opacity
      ensures Valid()
      ensures key == DownKey && rows != [] ==> currentRow == NextRow(old(currentRow), |rows|)
      ensures key == UpKey && rows != [] ==> currentRow == PrevRow(old(currentRow), |rows|)
      ensures (key != DownKey && key != UpKey) || rows == [] ==> currentRow == old(currentRow)
      ensures key == EscapeKey ==> popup.opacity == 100
      ensures key != EscapeKey ==> popup.opacity == old(popup.opacity)
    {
      match key
      case DownKey =>
        if |rows| > 0 {
          if currentRow < |rows| - 1 {
            currentRow := currentRow + 1;
          } else {
            currentRow := 0;
          }
        }
      case UpKey =>
        if |rows| > 0 {
          if currentRow > 0 {
            currentRow := currentRow - 1;
          } else {
            currentRow := |rows| - 1;
          }
        }
      case EscapeKey =>
        var _ := popup.CloseAnimated();
      case OtherKey =>
    }

    /**
     * Clicking or activating a row: a command row emits its name and data
     * and calls `close_animated`, which as written leaves the palette shown
     * and makes it opaque.
     */
    method ExecuteRow(j: int) returns (executed: Option<(string, Data)>)
      requires Valid() && 0 <= j < |rows|
      modifies popup`opacity
      ensures rows[j].CommandRow? ==> executed == Some((rows[j].cmd.name, rows[j].cmd.data)) && popup.opacity == 100
      ensures rows[j].SeparatorRow? ==> executed == None && popup.opacity == old(popup.opacity)
    {
      match rows[j]
      case CommandRow(c) =>
        executed := Some((c.name, c.data));
        var _ := popup.CloseAnimated();
      case SeparatorRow(_) =>
        executed := None;
    }

    /** Return in the search field executes the current row, if any. */
    method ExecuteSelected() returns (executed: Option<(string, Data)>)
      requires Valid()
      modifies popup`opacity
      ensures currentRow == -1 ==> executed == None && popup.opacity == old(popup.opacity)
      ensures 0 <= currentRow && rows[currentRow].CommandRow? ==>
        executed == Some((rows[currentRow].cmd.name, rows[currentRow].cmd.data)) && popup.opacity == 100
      ensures 0 <= currentRow && rows[currentRow].SeparatorRow? ==>
        executed == None && popup.opacity == old(popup.opacity)
    {
      executed := None;
      if currentRow >= 0 {
        executed := ExecuteRow(currentRow);
      }
    }

    /**
     * Clears the search, lists every command, selects the first row and
     * shows the popup centred; as written its fade-in leaves it transparent.
     */
    method ShowPalette(parent: Option<BasePopup.Rect>, screen: BasePopup.Rect)
      requires Valid()
      modifies this`searchText, this`filtered, this`rows, this`currentRow, popup`position, popup`visible, popup`opacity
      ensures Valid() && searchText == ""
      ensures filtered == FilterOrder(PyDict.Values(commands), "")
      ensures currentRow == if rows != [] then 0 else -1
      ensures popup.visible && popup.opacity == 0
      ensures popup.position == BasePopup.CenteredPosition(parent, screen, PaletteWidth, PaletteHeight)
    {
      QueryOfBlank();
      if searchText != "" {
        searchText := "";
        FilterCommands("");
      }
      FilterCommands("");
      popup.ShowCentered(parent, screen, PaletteWidth, PaletteHeight);
    }

    /** A copy of the registry: every registered name mapped to its command. */
    method GetCommands() returns (m: map<string, Command>)
      ensures forall k :: k in m <==> k in Names(commands)
      ensures forall k :: k in m ==> PyDict.Get(commands, k) == Some(m[k])
    {
      m := PyDict.ToMap(commands);
    }
  }

  /** The commands the quick palette starts with, in order. */
  const DefaultNames: seq<string> :=
    ["New File", "Open File", "Save", "Save As", "Copy", "Paste", "Undo", "Redo", "Settings", "Help"]

  class QuickCommandPalette {
    const palette: CommandPaletteWidget

    constructor ()
      ensures fresh(palette) && fresh(palette.popup) && palette.Valid()
      ensures forall n :: n in Names(palette.commands) <==> n in DefaultNames
    {
      var p := new CommandPaletteWidget();
      AddFileCommands(p);
      assert forall n :: n in Names(p.commands) <==> n in ["New File", "Open File", "Save", "Save As"];
      AddEditCommands(p);
      assert forall n :: n in Names(p.commands) <==> n in ["New File", "Open File", "Save", "Save As", "Copy", "Paste", "Undo", "Redo"];
      AddViewAndHelpCommands(p);
      assert forall n :: n in Names(p.commands) <==> n in ["New File", "Open File", "Save", "Save As", "Copy", "Paste", "Undo", "Redo", "Settings", "Help"];
      palette := p;
    }

    /** The File group of the default commands. */
    static method AddFileCommands(p: CommandPaletteWidget)
      requires p.Valid()
      modifies p`commands, p`rows, p`currentRow
      ensures p.Valid()
      ensures forall n :: n in Names(p.commands) <==> n in Names(old(p.commands)) || n in ["New File", "Open File", "Save", "Save As"]
    {
      p.AddCommand("New File", "Create a new file", "Ctrl+N", None, None, "File");
      assert forall n :: n in Names(p.commands) <==> n in Names(old(p.commands)) || n in ["New File"];
      p.AddCommand("Open File", "Open an existing file", "Ctrl+O", None, None, "File");
      assert forall n :: n in Names(p.commands) <==> n in Names(old(p.commands)) || n in ["New File", "Open File"];
      p.AddCommand("Save", "Save current file", "Ctrl+S", None, None, "File");
      assert forall n :: n in Names(p.commands) <==> n in Names(old(p.commands)) || n in ["New File", "Open File", "Save"];
      p.AddCommand("Save As", "Save file with new name", "Ctrl+Shift+S", None, None, "File");
    }

    /** The Edit group of the default commands. */
    static method AddEditCommands(p: CommandPaletteWidget)
      requires p.Valid()
      modifies p`commands, p`rows, p`currentRow
      ensures p.Valid()
      ensures forall n :: n in Names(p.commands) <==> n in Names(old(p.commands)) || n in ["Copy", "Paste", "Undo", "Redo"]
    {
      p.AddCommand("Copy", "Copy selection", "Ctrl+C", None, None, "Edit");
      assert forall n :: n in Names(p.commands) <==> n in Names(old(p.commands)) || n in ["Copy"];
      p.AddCommand("Paste", "Paste from clipboard", "Ctrl+V", None, None, "Edit");
      assert forall n :: n in Names(p.commands) <==> n in Names(old(p.commands)) || n in ["Copy", "Paste"];
      p.AddCommand("Undo", "Undo last action", "Ctrl+Z", None, None, "Edit");
      assert forall n :: n in Names(p.commands) <==> n in Names(old(p.commands)) || n in ["Copy", "Paste", "Undo"];
      p.AddCommand("Redo", "Redo last undone action", "Ctrl+Y", None, None, "Edit");
    }

    /** The View and Help commands of the default commands. */
    static method AddViewAndHelpCommands(p: CommandPaletteWidget)
      requires p.Valid()
      modifies p`commands, p`rows, p`currentRow
      ensures p.Valid()
      ensures forall n :: n in Names(p.commands) <==> n in Names(old(p.commands)) || n in ["Settings", "Help"]
    {
      p.AddCommand("Settings", "Open application settings", "", None, None, "View");
      assert forall n :: n in Names(p.commands) <==> n in Names(old(p.commands)) || n in ["Settings"];
      p.AddCommand("Help", "Show help documentation", "F1", None, None, "Help");
      assert forall n :: n in Names(p.commands) <==> n in Names(old(p.commands)) || n in ["Settings", "Help"];
    }
  }

  /** A palette whose commands carry a callback, registered by action name. */
  class ApplicationCommandPalette {
    const palette: CommandPaletteWidget
    /** Action name to callback identifier. */
    var registry: map<string, string>

    /** Every registered action is a listed command. */
    ghost predicate Consistent()
      reads this, palette
    {
      palette.Valid() && forall k :: k in registry ==> k in Names(palette.commands)
    }

    constructor ()
      ensures fresh(palette) && fresh(palette.popup) && Consistent()
      ensures registry == map[] && palette.commands == [] && palette.rows == []
    {
      palette := new CommandPaletteWidget();
      registry := map[];
    }

    method RegisterAction(name: string, callback: string, description: string, shortcut: string,
                          icon: Option<string>, category: string)
      requires Consistent()
      modifies this`registry, palette`commands, palette`rows, palette`currentRow
      ensures Consistent()
      ensures registry == old(registry)[name := callback]
      ensures palette.commands == PyDict.Put(old(palette.commands), name,
        MakeCommand(name, description, shortcut, icon, Some(map["callback" := callback]), category))
    {
      registry := registry[name := callback];
      palette.AddCommand(name, description, shortcut, icon, Some(map["callback" := callback]), category);
    }

    /** Only a registered action is removed, together with its command. */
    method UnregisterAction(name: string)
      requires Consistent()
      modifies this`registry, palette`commands, palette`rows, palette`currentRow
      ensures Consistent()
      ensures name in old(registry) ==>
        registry == old(registry) - {name} && palette.commands == PyDict.Del(old(palette.commands), name)
      ensures name !in old(registry) ==>
        registry == old(registry) && palette.commands == old(palette.commands)
    {
      if name in registry {
        registry := registry - {name};
        ghost var before := palette.commands;
        palette.RemoveCommand(name);
        forall k | k in registry ensures k in Names(palette.commands) {
          assert PyDict.Get(palette.commands, k) == PyDict.Get(before, k);
        }
      }
    }

    /** Executing a command row first invokes its callback, if its data has one. */
    method ExecuteRow(j: int) returns (invoked: Option<string>, executed: Option<(string, Data)>)
      requires palette.Valid() && 0 <= j < |palette.rows|
      modifies palette.popup`opacity
      ensures var row := palette.rows[j];
        invoked == if row.CommandRow? && "callback" in row.cmd.data then Some(row.cmd.data["callback"]) else None
      ensures palette.rows[j].CommandRow? ==>
        executed == Some((palette.rows[j].cmd.name, palette.rows[j].cmd.data)) && palette.popup.opacity == 100
      ensures palette.rows[j].SeparatorRow? ==> executed == None && palette.popup.opacity == old(palette.popup.opacity)
    {
      invoked := None;
      var row := palette.rows[j];
      if row.CommandRow? && "callback" in row.cmd.data {
        invoked := Some(row.cmd.data["callback"]);
      }
      executed := palette.ExecuteRow(j);
    }
  }

  /** A palette whose typing restarts a 150 ms timer; the search runs when it fires. */
  class SearchableCommandPalette {
    const palette: CommandPaletteWidget
    var pending: string
    var timerRunning: bool

    constructor ()
      ensures fresh(palette) && fresh(palette.popup) && palette.Valid()
      ensures palette.commands == [] && pending == "" && !timerRunning
    {
      palette := new CommandPaletteWidget();
      pending := "";
      timerRunning := false;
    }

    /** The debounced filter: remembers the text and (re)starts the timer. */
    method FilterCommands(text: string)
      modifies this`pending, this`timerRunning
      ensures pending == text && timerRunning
    {
      pending := text;
      timerRunning := true;
    }

    method SetSearchText(text: string)
      modifies palette`searchText, this`pending, this`timerRunning
      ensures palette.searchText == text
      ensures old(palette.searchText) != text ==> pending == text && timerRunning
      ensures old(palette.searchText) == text ==> pending == old(pending) && timerRunning == old(timerRunning)
    {
      if palette.searchText != text {
        palette.searchText := text;
        FilterCommands(text);
      }
    }

    method ShowPalette(parent: Option<BasePopup.Rect>, screen: BasePopup.Rect)
      modifies palette`searchText, this`pending, this`timerRunning, palette.popup`position, palette.popup`visible, palette.popup`opacity
      ensures palette.searchText == "" && pending == "" && timerRunning
      ensures palette.popup.visible && palette.popup.opacity == 0
      ensures palette.popup.position == BasePopup.CenteredPosition(parent, screen, PaletteWidth, PaletteHeight)
    {
      SetSearchText("");
      FilterCommands("");
      palette.popup.ShowCentered(parent, screen, PaletteWidth, PaletteHeight);
    }

    /** The timer's timeout: runs the search for the pending text and selects the first row. */
    method PerformSearch()
      requires palette.Valid()
      modifies this`timerRunning, palette`filtered, palette`rows, palette`currentRow
      ensures palette.Valid() && !timerRunning
      ensures palette.filtered == SearchOrder(PyDict.Values(palette.commands), Query(pending))
      ensures palette.currentRow == if palette.rows != [] then 0 else -1
    {
      timerRunning := false;
      var q := Query(pending);
      var cmds := PyDict.Values(palette.commands);
      if q == "" {
        palette.filtered := cmds;
      } else {
        var scored := ScoreCommands(cmds, q);
        palette.filtered := Items(Sort(scored));
      }
      assert palette.filtered == SearchOrder(cmds, q);
      palette.UpdateDisplay();
      palette.SelectFirstRow();
    }
  }
}
