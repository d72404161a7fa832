# pyqt-widgets in Dafny

A model of the `pyqt_widgets` package, a library of pre-styled PyQt6
widgets: cards, navigation bars, forms, data views, feedback pop-ups,
user widgets and small utilities. The library also has a theme manager
that holds colour tokens for a light and a dark theme and turns the
current theme into a style sheet.

Each widget is a Python class whose methods update its fields and emit
Qt signals. Each such class becomes a Dafny `class` with the same fields.
Its methods carry `modifies` clauses and contracts that give the new
state and the signals emitted; the signals are returned as values.

The logic that decides what a widget shows is written as functions, with
lemmas about them. This covers filtering and scoring, page windows,
re-keying after a close, stable sorting, tree check states, dictionary
order and the like. The lemmas state the partner properties: round trips,
preserved invariants, bounds and permutations.

## Layout

- One file and one module per source file, named after it
  (`tab_bar.dfy` is `module TabBar`).
- Shared pieces have their own modules:
  - `common.dfy`: ASCII case mapping, `strip`, `split`, `join`, integer
    text, and lists of named entries.
  - `py_dict.dfy`: Python's insertion-ordered `dict`.
  - `stable_sort.dfy`: Python's stable `sorted`.
  - `qt_range.dfy`: the clamping and signalling of `QSlider` and
    `QSpinBox`.
  - `comment_tree.dfy`: the comment thread's tree.

## How the runtime is modelled

- Qt widgets the library only configures are plain fields. Object
  identities are natural numbers.
- Timers are pending flags, and each timer firing is a method call.
- An animation kept in a field (the expandable card's height, the FAB's
  moves, the toggle switch's thumb) is taken at its end state. An
  animation kept only in a local variable, or returned by `fade_in` or
  `fade_out` and dropped by the caller, has no parent and is deleted when
  the function returns. It never finishes, and its start value, already
  applied by `start()`, is what stays. Where that start value matters, the
  member named after the source method models it, and a member with the
  suffix `Intended` models the end state the authors meant.
- Whatever the library reads from the outside world is a parameter: the
  clock, the cursor, the clipboard, the file system, and callbacks
  supplied by the caller.

Several widgets misbehave as written; these are listed under Findings.
Each has a member that states the behaviour as written and a corrected
member with the evidently intended property.

## Model

| member | source | states |
|---|---|---|
| Pagination.VisibleRangeBounds | pyqt_widgets/navigation/pagination.py:180-194 | for 1 <= current <= total the window satisfies 1 <= start <= current <= end <= total |
| Pagination.VisibleRangeSize | pyqt_widgets/navigation/pagination.py:180-194 | for an odd maximum the window holds min(maximum, total) pages |
| Pagination.PageRun | pyqt_widgets/navigation/pagination.py:151-153 | the window's buttons are the pages start..end in order, the current one marked |
| Pagination.PageItemsWellFormed | pyqt_widgets/navigation/pagination.py:128-167 | the bar starts at page 1, ends at the last page, neighbouring buttons are consecutive pages, an ellipsis stands exactly for a gap, and the current page is shown and marked |
| Pagination.ItemsInfo | pyqt_widgets/navigation/pagination.py:288-295 | "Showing c of t items" when a non-zero total is known, else "Showing c items" |
| Pagination.PaginationWidget.SetupUi | pyqt_widgets/navigation/pagination.py:28-126 | each mode builds its controls; a single-page numeric bar keeps fresh enabled arrows and an empty label |
| Pagination.PaginationWidget.UpdateNumeric | pyqt_widgets/navigation/pagination.py:128-178 | rebuilds the bar; with at most one page it returns before touching the arrows and label |
| Pagination.PaginationWidget.UpdateSimple | pyqt_widgets/navigation/pagination.py:211-215 | previous enabled iff page > 1, next iff page < total, label "Page c of t" |
| Pagination.PaginationWidget.SetCurrentPage | pyqt_widgets/navigation/pagination.py:231-241 | a page in [1, total] other than the current one is taken and emitted; anything else changes nothing |
| Pagination.PaginationWidget.SetTotalPages | pyqt_widgets/navigation/pagination.py:243-254 | stores max(1, n) and clamps the current page down to it |
| Pagination.PaginationWidget.GoToPrevious | pyqt_widgets/navigation/pagination.py:217-220 | moves back one page or not at all; a page taken lies in [1, total] |
| Pagination.PaginationWidget.GoToNext | pyqt_widgets/navigation/pagination.py:222-225 | moves on one page or not at all; a page taken lies in [1, total] |
| Pagination.PaginationWidget.SetMode | pyqt_widgets/navigation/pagination.py:264-276 | a different mode detaches the old controls and re-runs the setup, whose `QHBoxLayout(self)` (pagination.py:37) is refused, so the widget no longer shows any controls; pages are kept and the same mode changes nothing |
| Pagination.PaginationWidget.SetModeIntended | pyqt_widgets/navigation/pagination.py:264-276 | as intended, the new mode's controls replace the old ones on screen; a switch to simple mode shows the arrows and "Page c of t" for the kept page |
| Pagination.ControlsHiddenAfterSetMode | pyqt_widgets/navigation/pagination.py:28-37 | as written, a numeric bar switched to simple mode shows no controls |
| Pagination.ControlsShownAfterSetModeIntended | pyqt_widgets/navigation/pagination.py:264-276 | as intended, the same bar shows "Page 3 of 10" |
| Pagination.PaginationWidget.SetLoadingState | pyqt_widgets/navigation/pagination.py:278-286 | only in load-more mode: "Loading..." disabled or "Load More" enabled |
| Pagination.PaginationWidget.UpdateItemsInfo | pyqt_widgets/navigation/pagination.py:288-295 | only in load-more mode the label shows ItemsInfo |
| Pagination.PaginationWidget.ClickLoadMore | pyqt_widgets/navigation/pagination.py:227-229 | `load_more_requested` is emitted exactly when the load-more button exists, is shown and is enabled |
| Pagination.PaginationWidget.ClickWhileLoading | pyqt_widgets/navigation/pagination.py:278-286 | after the loading state is set, the button reads "Loading..." and a click requests nothing |
| Pagination.InfiniteScrollPagination.AddItems | pyqt_widgets/navigation/pagination.py:307-310 | the count grows by the amount added and the label follows |
| Pagination.InfiniteScrollPagination.SetTotalItems | pyqt_widgets/navigation/pagination.py:312-322 | the button is shown exactly while fewer items than the total are loaded |
| Pagination.InfiniteScrollPagination.Reset | pyqt_widgets/navigation/pagination.py:324-330 | count 0, no total, "Showing 0 items", button shown |
| Pagination.CompactPagination.constructor | pyqt_widgets/navigation/pagination.py:333-353 | a simple-mode bar with "‹"/"›" arrows |
| TabBar.ActiveAfterCloseKeepsTab | pyqt_widgets/navigation/tab_bar.py:209-218 | closing another tab keeps the same tab active (its index shifts down when it was to the right); closing the active tab activates max(0, index-1) |
| TabBar.TabBarWidget.AddTab | pyqt_widgets/navigation/tab_bar.py:87-181 | returns the count before insertion, appends the tab, the first tab becomes active, and the events are tab_clicked (first tab only) then tab_added |
| TabBar.TabBarWidget.AddDefaultTab | pyqt_widgets/navigation/tab_bar.py:191-195 | the "+" button appends "Tab {n+1}" |
| TabBar.TabBarWidget.SetActiveTab | pyqt_widgets/navigation/tab_bar.py:236-264 | an index in range becomes active and emits tab_clicked; out of range changes nothing |
| TabBar.TabBarWidget.CloseTab | pyqt_widgets/navigation/tab_bar.py:197-223 | out of range is ignored; otherwise deletes the tab, keeps "active = -1 iff no tabs", and emits tab_clicked for the new active tab before tab_closed |
| TabBar.TabBarWidget.GetTabName | pyqt_widgets/navigation/tab_bar.py:274-278 | the tab's name, or "" out of range |
| TabBar.TabBarWidget.SetTabName | pyqt_widgets/navigation/tab_bar.py:280-284 | renames only an existing tab |
| TabBar.TabBarWidget.SetTabIcon | pyqt_widgets/navigation/tab_bar.py:286-290 | changes only an existing tab's icon |
| TabBar.TabBarWidget.ClearTabs | pyqt_widgets/navigation/tab_bar.py:292-295 | closing from the last tab down leaves no tabs and active -1 |
| TabBar.RekeyMirrorsDeleteAt | pyqt_widgets/navigation/tab_bar.py:376-388 | the re-keyed content map mirrors the widget list with the closed position deleted |
| TabBar.TabbedContainer.Dispatch | pyqt_widgets/navigation/tab_bar.py:366-388 | the container handles the bar's events in emission order (Step: tab_clicked shows only the clicked tab's widget; tab_closed detaches and re-keys) |
| TabBar.TabbedContainer.AddTab | pyqt_widgets/navigation/tab_bar.py:355-364 | the bar's events are handled before the widget is registered; the widget is then registered hidden |
| TabBar.TabbedContainer.CloseTab | pyqt_widgets/navigation/tab_bar.py:197-388 | the bar's tab_clicked and tab_closed are applied to the map in that order |
| TabBar.FirstTabContentStaysHidden | pyqt_widgets/navigation/tab_bar.py:176-362 | after adding the first tab it is active but no content is shown |
| TabBar.ClosingActiveFirstTabHidesContent | pyqt_widgets/navigation/tab_bar.py:210-388 | closing the active first of two tabs leaves the new active tab's widget hidden |
| TabBar.SyncedTabbedContainer.CloseTab | pyqt_widgets/navigation/tab_bar.py:376-388 | corrected: the map is re-keyed before showing, so exactly the active tab's widget is shown |
| TabBar.SyncedClosingActiveFirstTabShowsContent | pyqt_widgets/navigation/tab_bar.py:210-388 | corrected: the same scenario shows the remaining tab's widget |
| BreadcrumbBar.DisplayPathsShape | pyqt_widgets/navigation/breadcrumb_bar.py:87-94 | up to max_items segments are all shown; beyond that the first, "..." and the last max_items-2 (so exactly max_items of them); with max_items 2 the whole trail follows the ellipsis |
| BreadcrumbBar.CrumbsPointAtTheirText | pyqt_widgets/navigation/breadcrumb_bar.py:105-120 | a displayed link reports an index of the full path holding its own text; the plain label shows the last segment |
| BreadcrumbBar.CrumbPrefixShape | pyqt_widgets/navigation/breadcrumb_bar.py:103-129 | the widgets built so far hold segment k at 2k, separators in between, and the plain label only at the last place |
| BreadcrumbBar.BuildCrumbs | pyqt_widgets/navigation/breadcrumb_bar.py:76-129 | one widget per displayed segment, a separator between neighbours, and only the last is the non-clickable label |
| BreadcrumbBar.LinksPointAtTheirText | pyqt_widgets/navigation/breadcrumb_bar.py:131-164 | every link of a built bar reports an index of the full path holding its own text |
| BreadcrumbBar.BreadcrumbBarWidget.ClickCrumb | pyqt_widgets/navigation/breadcrumb_bar.py:144-148 | only links emit breadcrumb_clicked, with an index and the text found there in the path |
| BreadcrumbBar.BreadcrumbBarWidget.SetPaths | pyqt_widgets/navigation/breadcrumb_bar.py:55-58 | replaces the trail and rebuilds the bar |
| BreadcrumbBar.BreadcrumbBarWidget.AddPath | pyqt_widgets/navigation/breadcrumb_bar.py:60-63 | appends one segment and rebuilds the bar |
| BreadcrumbBar.BreadcrumbBarWidget.RemoveLastPath | pyqt_widgets/navigation/breadcrumb_bar.py:65-69 | drops the last segment; an empty trail is unchanged |
| BreadcrumbBar.BreadcrumbBarWidget.ClearPaths | pyqt_widgets/navigation/breadcrumb_bar.py:71-74 | no segments and no widgets remain |
| BreadcrumbBar.BreadcrumbBarWidget.NavigateToIndex | pyqt_widgets/navigation/breadcrumb_bar.py:166-171 | an index in range truncates the trail to end at that segment; out of range changes nothing |
| BreadcrumbBar.BreadcrumbBarWidget.GetCurrentPath | pyqt_widgets/navigation/breadcrumb_bar.py:173-175 | the last segment, or "" for an empty trail |
| BreadcrumbBar.BreadcrumbBarWidget.GetFullPath | pyqt_widgets/navigation/breadcrumb_bar.py:177-179 | the segments joined by the given separator |
| BreadcrumbBar.BreadcrumbBarWidget.GetPaths | pyqt_widgets/navigation/breadcrumb_bar.py:181-183 | the segments in order |
| BreadcrumbBar.BreadcrumbBarWidget.SetSeparator | pyqt_widgets/navigation/breadcrumb_bar.py:185-188 | the new separator is used between all widgets |
| BreadcrumbBar.BreadcrumbBarWidget.SetMaxItems | pyqt_widgets/navigation/breadcrumb_bar.py:190-193 | the bar is rebuilt with the new limit |
| BreadcrumbBar.FilePathRoundTrip | pyqt_widgets/navigation/breadcrumb_bar.py:202-223 | segments without '/' joined into a path and split again come back unchanged |
| BreadcrumbBar.FileBreadcrumbBar.SetFilePath | pyqt_widgets/navigation/breadcrumb_bar.py:202-218 | the trail is the non-empty '/'-separated fields of the path |
| BreadcrumbBar.FileBreadcrumbBar.GetFilePath | pyqt_widgets/navigation/breadcrumb_bar.py:220-223 | the segments joined by '/' |
| BreadcrumbBar.UrlPartsOfJoin | pyqt_widgets/navigation/breadcrumb_bar.py:232-243 | a host and a path of segments give the host followed by the segments |
| BreadcrumbBar.UrlRoundTrip | pyqt_widgets/navigation/breadcrumb_bar.py:232-256 | segments set from a URL are written back as "https://host/seg/..." |
| BreadcrumbBar.UrlPath | pyqt_widgets/navigation/breadcrumb_bar.py:245-256 | "" for no segments, "https://host" for one, the host then "/"-joined rest otherwise |
| BreadcrumbBar.WebBreadcrumbBar.SetUrlPath | pyqt_widgets/navigation/breadcrumb_bar.py:232-243 | the host (when present) then the non-empty path fields |
| BreadcrumbBar.WebBreadcrumbBar.GetUrlPath | pyqt_widgets/navigation/breadcrumb_bar.py:245-256 | equals UrlPath of the segments |
| BreadcrumbBar.CustomizableBreadcrumb.SetPathIcon | pyqt_widgets/navigation/breadcrumb_bar.py:266-269 | records the icon for the segment text and rebuilds the bar |
| BreadcrumbBar.CustomizableBreadcrumb.IconOf | pyqt_widgets/navigation/breadcrumb_bar.py:271-285 | a segment has an icon exactly when one was set for its text |
| CommandPalette.MakeCommand | pyqt_widgets/navigation/command_palette.py:131-145 | the command keeps its fields, a missing data dict becomes empty, and its search text is the lowercase of "name description category" |
| CommandPalette.SearchTextFields | pyqt_widgets/navigation/command_palette.py:138-145 | a one-word query occurs in the search text exactly when it occurs in the lowercased name, description or category |
| CommandPalette.QueryOfBlank | pyqt_widgets/navigation/command_palette.py:160-161 | a query of blanks strips to the empty query |
| CommandPalette.MatchingMembers | pyqt_widgets/navigation/command_palette.py:163-168 | a command is kept exactly when its search text contains the query, in the original order |
| CommandPalette.CandidatesMembers | pyqt_widgets/navigation/command_palette.py:160-168 | the empty query keeps every command, any other query keeps exactly the matching ones |
| CommandPalette.FilterOrderSpec | pyqt_widgets/navigation/command_palette.py:158-180 | the filtered list is a permutation of the matching commands, with name-prefix matches first and names ascending within each group |
| CommandPalette.BlankQueryListsAll | pyqt_widgets/navigation/command_palette.py:160-174 | an empty query lists every command, names in ascending order |
| CommandPalette.FilterTiesKeepOrder | pyqt_widgets/navigation/command_palette.py:171-174 | commands with equal sort keys keep their insertion order (stable sort) |
| CommandPalette.DisplayRows | pyqt_widgets/navigation/command_palette.py:182-208 | one row per command plus at most one separator each; with no category yet, the first row is the first command |
| CommandPalette.RowsListTheCommands | pyqt_widgets/navigation/command_palette.py:182-208 | dropping the separators from the rows gives back the filtered commands in order |
| CommandPalette.SeparatorsHeadTheirCategory | pyqt_widgets/navigation/command_palette.py:186-197 | every separator is followed by a command of that non-empty category, which differs from the previous command's category |
| CommandPalette.BuildRows | pyqt_widgets/navigation/command_palette.py:182-208 | the loop builds exactly the rows of DisplayRows |
| CommandPalette.NextRow | pyqt_widgets/navigation/command_palette.py:111-117 | Down moves to the following row and wraps from the last row to 0, staying in range |
| CommandPalette.PrevRow | pyqt_widgets/navigation/command_palette.py:118-124 | Up moves to the preceding row and wraps from 0 (or no row) to the last row, staying in range |
| CommandPalette.WrapInverse | pyqt_widgets/navigation/command_palette.py:111-124 | Up undoes Down and Down undoes Up on a selected row |
| CommandPalette.NameScore | pyqt_widgets/navigation/command_palette.py:424-431 | positive exactly for a substring, at least 80 exactly for a prefix, 100 exactly for an equal name |
| CommandPalette.SearchScore | pyqt_widgets/navigation/command_palette.py:418-450 | exact name at least 100, prefix 80, substring 60, description 30, category 20, never negative |
| CommandPalette.OneWordScoreAgreesWithFilter | pyqt_widgets/navigation/command_palette.py:418-450 | for a one-word query the score is positive exactly when the plain filter would keep the command |
| CommandPalette.CalculateSearchScore | pyqt_widgets/navigation/command_palette.py:418-450 | the word loop adds up to SearchScore |
| CommandPalette.ScoreCommands | pyqt_widgets/navigation/command_palette.py:400-408 | the loop pairs every positively scored command with its score key, in order |
| CommandPalette.ScoredOrderSpec | pyqt_widgets/navigation/command_palette.py:395-418 | the result is a permutation of the positively scored commands, ordered by non-increasing score |
| CommandPalette.ScoreTiesKeepOrder | pyqt_widgets/navigation/command_palette.py:409-411 | commands with equal scores keep their insertion order |
| CommandPalette.OneWordSearchesAgree | pyqt_widgets/navigation/command_palette.py:395-418 | for a one-word query the scored search and the plain filter keep the same commands |
| CommandPalette.CommandPaletteWidget.UpdateDisplay | pyqt_widgets/navigation/command_palette.py:182-208 | the rows are rebuilt from the filtered list and no row is current |
| CommandPalette.CommandPaletteWidget.AddCommand | pyqt_widgets/navigation/command_palette.py:131-145 | the command is stored under its name (replacing one of that name) and the stale filtered list is redrawn |
| CommandPalette.CommandPaletteWidget.RemoveCommand | pyqt_widgets/navigation/command_palette.py:147-151 | a present name is deleted, an absent one changes nothing |
| CommandPalette.CommandPaletteWidget.ClearCommands | pyqt_widgets/navigation/command_palette.py:153-187 | as written: no command is left, but the list is redrawn from the last filtered list, so the rows shown before stay, the first being the first command that was listed, and nothing is selected |
| CommandPalette.CommandPaletteWidget.ClearCommandsIntended | pyqt_widgets/navigation/command_palette.py:153-156 | as intended: no command, no filtered command and no row is left, and nothing is selected |
| CommandPalette.CommandPaletteWidget.FilterCommands | pyqt_widgets/navigation/command_palette.py:158-180 | the filtered list is FilterOrder of the stored commands and the first row, if any, is current |
| CommandPalette.CommandPaletteWidget.SetSearchText | pyqt_widgets/navigation/command_palette.py:36 | a changed search text refilters, an unchanged one changes nothing |
| CommandPalette.CommandPaletteWidget.HandleKeyPress | pyqt_widgets/navigation/command_palette.py:109-129 | Down and Up move by NextRow and PrevRow when there are rows; Escape calls close_animated, which as written leaves the palette shown and makes it opaque |
| CommandPalette.CommandPaletteWidget.ExecuteRow | pyqt_widgets/navigation/command_palette.py:304-309 | a command row emits its name and data and calls close_animated (as written the palette stays shown, made opaque); a separator row does nothing |
| CommandPalette.CommandPaletteWidget.ExecuteSelected | pyqt_widgets/navigation/command_palette.py:298-302 | with a current row it executes that row, otherwise nothing |
| CommandPalette.CommandPaletteWidget.ShowPalette | pyqt_widgets/navigation/command_palette.py:311-316 | the search is cleared, every command is listed, and the palette is shown centred at 600 by 400, transparent as written |
| CommandPalette.CommandPaletteWidget.GetCommands | pyqt_widgets/navigation/command_palette.py:318-320 | a copy of the stored commands by name |
| CommandPalette.QuickCommandPalette.constructor | pyqt_widgets/navigation/command_palette.py:323-343 | the palette holds exactly the ten default command names |
| CommandPalette.ApplicationCommandPalette.RegisterAction | pyqt_widgets/navigation/command_palette.py:353-358 | the callback is registered and a command carrying it is added |
| CommandPalette.ApplicationCommandPalette.UnregisterAction | pyqt_widgets/navigation/command_palette.py:360-364 | only a registered name is removed from the registry and the palette |
| CommandPalette.ApplicationCommandPalette.ExecuteRow | pyqt_widgets/navigation/command_palette.py:366-377 | a command with a registered callback invokes it; the command is emitted and close_animated called (as written the palette stays shown) |
| CommandPalette.SearchableCommandPalette.FilterCommands | pyqt_widgets/navigation/command_palette.py:389-393 | the text is kept as pending and the debounce timer restarts |
| CommandPalette.SearchableCommandPalette.PerformSearch | pyqt_widgets/navigation/command_palette.py:395-418 | the filtered list is SearchOrder of the pending query and the first row is current |
| BasePopup.Popup.CloseAnimated | build/lib/pyqt_widgets/base/base_popup.py:89-96 | as written: the fade-out only sets full opacity; the popup stays shown and closed is not emitted |
| BasePopup.Popup.CloseAnimatedIntended | build/lib/pyqt_widgets/base/base_popup.py:89-96 | intended: faded out, hidden, closed emitted, nothing seen |
| AccordionMenu.IsExpanded | pyqt_widgets/navigation/accordion_menu.py:290-292 | only a known section can be expanded |
| AccordionMenu.ToggleFlips | pyqt_widgets/navigation/accordion_menu.py:196-214 | a header click flips that section's expanded flag and keeps every key and every section's items |
| AccordionMenu.ToggleOpensOnlyOne | pyqt_widgets/navigation/accordion_menu.py:204-212 | with one open section allowed, the section just clicked open is the only expanded one |
| AccordionMenu.ToggleLeavesOthers | pyqt_widgets/navigation/accordion_menu.py:204-214 | closing a section, or opening one when several may be open, leaves every other section as it was |
| AccordionMenu.ToggleTwiceRestores | pyqt_widgets/navigation/accordion_menu.py:196-214 | when several sections may be open, two clicks on a header restore the menu |
| AccordionMenu.CollapseEventsNameOpenOthers | pyqt_widgets/navigation/accordion_menu.py:205-208 | the loop emits (name, False) exactly for the other sections that were open |
| AccordionMenu.GetCollapseOthers | pyqt_widgets/navigation/accordion_menu.py:205-208 | after the loop the clicked section is unchanged and every other known section is closed with its items |
| AccordionMenu.AccordionMenuWidget.ToggleSection | pyqt_widgets/navigation/accordion_menu.py:196-214 | the new sections and events are those of Toggled and ToggleEvents |
| AccordionMenu.AccordionMenuWidget.CollapseOthersLoop | pyqt_widgets/navigation/accordion_menu.py:205-208 | the loop over the dictionary collapses exactly the open sections other than the clicked one, emitting one event each in order |
| AccordionMenu.AccordionMenuWidget.AddSection | pyqt_widgets/navigation/accordion_menu.py:55-138 | a section of that name with no items replaces any earlier one in its place, or goes last |
| AccordionMenu.WithItemAppends | pyqt_widgets/navigation/accordion_menu.py:140-194 | adding to an unknown section does nothing; otherwise the item goes last and nothing else changes |
| AccordionMenu.AccordionMenuWidget.AddItem | pyqt_widgets/navigation/accordion_menu.py:140-194 | the sections become WithItem of the old ones |
| AccordionMenu.AccordionMenuWidget.ExpandNow | pyqt_widgets/navigation/accordion_menu.py:216-249 | a known section becomes expanded and (name, True) is emitted; an unknown one changes nothing |
| AccordionMenu.AccordionMenuWidget.CollapseNow | pyqt_widgets/navigation/accordion_menu.py:251-278 | a known section becomes collapsed and (name, False) is emitted; an unknown one changes nothing |
| AccordionMenu.AccordionMenuWidget.ExpandSection | pyqt_widgets/navigation/accordion_menu.py:280-283 | acts, and emits, only for a known collapsed section |
| AccordionMenu.AccordionMenuWidget.CollapseSection | pyqt_widgets/navigation/accordion_menu.py:285-288 | acts, and emits, only for a known expanded section |
| AccordionMenu.AccordionMenuWidget.IsSectionExpanded | pyqt_widgets/navigation/accordion_menu.py:290-292 | the section's flag, false for an unknown section |
| AccordionMenu.AccordionMenuWidget.RemoveSection | pyqt_widgets/navigation/accordion_menu.py:294-299 | a known section leaves the dictionary; an unknown one changes nothing |
| AccordionMenu.WithoutItemRemovesFirst | pyqt_widgets/navigation/accordion_menu.py:301-311 | exactly the first item of that name leaves the section; other sections and the expanded flags are untouched |
| AccordionMenu.WithItemThenWithout | pyqt_widgets/navigation/accordion_menu.py:140-311 | adding a new item name and removing it again restores the section's item names |
| AccordionMenu.AccordionMenuWidget.RemoveItem | pyqt_widgets/navigation/accordion_menu.py:301-311 | the search loop removes as WithoutItem says |
| AccordionMenu.AccordionMenuWidget.ClearSection | pyqt_widgets/navigation/accordion_menu.py:313-321 | a known section keeps its flag and loses all items |
| AccordionMenu.AccordionMenuWidget.GetSections | pyqt_widgets/navigation/accordion_menu.py:323-325 | the section names in insertion order |
| AccordionMenu.AccordionMenuWidget.GetSectionItems | pyqt_widgets/navigation/accordion_menu.py:327-331 | the item names of a section in order, none for an unknown one |
| AccordionMenu.AccordionMenuWidget.ClickItem | pyqt_widgets/navigation/accordion_menu.py:150 | a click on an item button emits its section and item name |
| AccordionMenu.SpecItems | pyqt_widgets/navigation/accordion_menu.py:343-347 | strings and dictionaries each give one button, a missing name being ""; other entries are skipped |
| AccordionMenu.TextItemsInOrder | pyqt_widgets/navigation/accordion_menu.py:340-347 | a list of strings becomes exactly those item names in order |
| AccordionMenu.SimpleAccordion.AddSectionWithItems | pyqt_widgets/navigation/accordion_menu.py:340-347 | the section is replaced by one holding the buttons of SpecItems |
| AccordionMenu.SettingTextKey | pyqt_widgets/navigation/accordion_menu.py:360-363 | for a key without ':', the item text before its first ':' is the key |
| AccordionMenu.SettingItems | pyqt_widgets/navigation/accordion_menu.py:360-363 | one "key: value" item per setting, in order |
| AccordionMenu.SettingsAccordion.AddSettingsGroup | pyqt_widgets/navigation/accordion_menu.py:356-363 | a collapsed section holding the SettingItems of the settings |
| AccordionMenu.StyledMarksFirstMatch | pyqt_widgets/navigation/accordion_menu.py:393-408 | restyling changes only the first item of that name |
| AccordionMenu.StyledKeepsNames | pyqt_widgets/navigation/accordion_menu.py:373-408 | restyling keeps item names, expanded flags and the other sections |
| AccordionMenu.NavigationAccordion.SetActiveItem | pyqt_widgets/navigation/accordion_menu.py:373-408 | the old active item is unstyled; the new one is styled and recorded only when its section holds it |
| AccordionMenu.NavigationAccordion.Restyle | pyqt_widgets/navigation/accordion_menu.py:378-408 | reports whether the section holds the item and restyles as Styled says |
| SidebarNav.NewItem | pyqt_widgets/navigation/sidebar_nav.py:154-209 | a new item is unstyled, remembers its group, and sits in that group's list exactly when the group is truthy and known |
| SidebarNav.GroupToggleFlips | pyqt_widgets/navigation/sidebar_nav.py:211-229 | a header click flips only that group's flag and keeps the group names; an unknown group changes nothing |
| SidebarNav.GroupToggleTwice | pyqt_widgets/navigation/sidebar_nav.py:211-229 | two header clicks restore the groups |
| SidebarNav.StyledFacts | pyqt_widgets/navigation/sidebar_nav.py:231-262 | restyling one item changes only that item's highlight and keeps the names |
| SidebarNav.ClickKeepsHighlightOnActive | pyqt_widgets/navigation/sidebar_nav.py:231-262 | after a click only the clicked item can be highlighted, and it is exactly when registered |
| SidebarNav.EmptyNamedItemKeepsHighlight | pyqt_widgets/navigation/sidebar_nav.py:234 | an active item named "" is never unstyled, so two buttons end up highlighted |
| SidebarNav.ActiveAfterRemove | pyqt_widgets/navigation/sidebar_nav.py:286-294 | the active name is dropped only when that registered item is removed |
| SidebarNav.GroupMembersSpec | pyqt_widgets/navigation/sidebar_nav.py:300 | the names collected are exactly the items added under the group |
| SidebarNav.WithoutGroupSpec | pyqt_widgets/navigation/sidebar_nav.py:296-307 | removing a group drops exactly its items and keeps every other entry |
| SidebarNav.RemoveGroupStep | pyqt_widgets/navigation/sidebar_nav.py:301-302 | each member is still present when the loop reaches it, and deleting it advances the loop |
| SidebarNav.SidebarNavWidget.AddGroup | pyqt_widgets/navigation/sidebar_nav.py:85-152 | the group is put into the dictionary, replacing one of that name in place |
| SidebarNav.SidebarNavWidget.AddItem | pyqt_widgets/navigation/sidebar_nav.py:154-209 | the item is put into the dictionary as NewItem describes |
| SidebarNav.SidebarNavWidget.ToggleGroup | pyqt_widgets/navigation/sidebar_nav.py:211-229 | a known group flips and its name and new state are emitted; an unknown one emits nothing |
| SidebarNav.SidebarNavWidget.ClickItem | pyqt_widgets/navigation/sidebar_nav.py:231-262 | the name becomes active even when unregistered, styles follow Clicked, and the name is emitted |
| SidebarNav.SidebarNavWidget.SetActiveItem | pyqt_widgets/navigation/sidebar_nav.py:278-280 | the same as a click |
| SidebarNav.SidebarNavWidget.GetActiveItem | pyqt_widgets/navigation/sidebar_nav.py:282-284 | returns the active name |
| SidebarNav.SidebarNavWidget.ToggleCollapse | pyqt_widgets/navigation/sidebar_nav.py:264-276 | the flag flips and the width becomes 60 when collapsed, 250 otherwise |
| SidebarNav.SidebarNavWidget.RemoveItem | pyqt_widgets/navigation/sidebar_nav.py:286-294 | a registered item is deleted and stops being active |
| SidebarNav.SidebarNavWidget.RemoveGroup | pyqt_widgets/navigation/sidebar_nav.py:296-307 | for a known group the items become WithoutGroup, a removed active item is forgotten, then the group goes; an unknown group changes nothing |
| SidebarNav.SidebarNavWidget.Clear | pyqt_widgets/navigation/sidebar_nav.py:309-315 | no items and no groups remain; an active name that was no item stays active |
| SidebarNav.ClickThenRemoveClearsActive | pyqt_widgets/navigation/sidebar_nav.py:231-294 | clicking a registered item and then removing it leaves nothing active |
| SidebarNav.CompactSidebarNav.constructor | pyqt_widgets/navigation/sidebar_nav.py:321-324 | a non-collapsible bar 60 wide that is not marked collapsed |
| SidebarNav.CompactSidebarNav.AddItem | pyqt_widgets/navigation/sidebar_nav.py:331-336 | a top-level item whose tooltip is set only when the tooltip is truthy |
| DockablePanel.DetachFloats | build/lib/pyqt_widgets/navigation/dockable_panel.py:168-202 | detaching leaves the panel floating and parentless and remembers the old parent; a floating panel is untouched; detaching twice is detaching once |
| DockablePanel.AttachDocks | build/lib/pyqt_widgets/navigation/dockable_panel.py:204-232 | attaching docks exactly the floating panels that have an original parent, into that parent; otherwise nothing changes |
| DockablePanel.DetachAttachRoundTrip | build/lib/pyqt_widgets/navigation/dockable_panel.py:168-232 | a docked panel with a parent that detaches and attaches is back in that parent |
| DockablePanel.ParentlessPanelStaysFloating | build/lib/pyqt_widgets/navigation/dockable_panel.py:174-206 | a panel that detaches without a parent can never attach again |
| DockablePanel.ToggleAlternates | build/lib/pyqt_widgets/navigation/dockable_panel.py:161-166 | the button alternates floating and docked while there is a parent to return to |
| DockablePanel.DragKeepsGrip | build/lib/pyqt_widgets/navigation/dockable_panel.py:141-145 | a floating drag keeps the cursor at the same offset from the panel |
| DockablePanel.DockablePanelWidget.constructor | build/lib/pyqt_widgets/navigation/dockable_panel.py:20-28 | a new panel is docked in the given parent with no drag in progress |
| DockablePanel.DockablePanelWidget.DetachPanel | build/lib/pyqt_widgets/navigation/dockable_panel.py:168-202 | the state becomes Detached, the panel is centred on the screen, the button shows the attach face and the signal fires only for a docked panel |
| DockablePanel.DockablePanelWidget.AttachPanel | build/lib/pyqt_widgets/navigation/dockable_panel.py:204-232 | the state becomes Attached and the signal fires only when the panel docks |
| DockablePanel.DockablePanelWidget.ToggleDetach | build/lib/pyqt_widgets/navigation/dockable_panel.py:161-166 | the state becomes Toggled and the matching signal fires |
| DockablePanel.DockablePanelWidget.TitleMousePress | build/lib/pyqt_widgets/navigation/dockable_panel.py:123-126 | a left press records the drag start |
| DockablePanel.DockablePanelWidget.TitleMouseMove | build/lib/pyqt_widgets/navigation/dockable_panel.py:128-145 | past the drag distance a docked detachable panel detaches and a floating panel follows the cursor |
| DockablePanel.DockablePanelWidget.TitleMouseRelease | build/lib/pyqt_widgets/navigation/dockable_panel.py:147-159 | the drag ends; a floating panel within 50 pixels of its original parent on both axes attaches |
| DockablePanel.DockablePanelWidget.ClosePanel | build/lib/pyqt_widgets/navigation/dockable_panel.py:234-237 | the panel closes and emits panel_closed |
| DockablePanel.DockablePanelWidget.SetContent | build/lib/pyqt_widgets/navigation/dockable_panel.py:239-247 | the widget replaces the content |
| DockablePanel.DockablePanelWidget.AddContentWidget | build/lib/pyqt_widgets/navigation/dockable_panel.py:249-251 | the widget is appended to the content |
| DockablePanel.DockablePanelWidget.SetTitle | build/lib/pyqt_widgets/navigation/dockable_panel.py:253-256 | the title is replaced |
| DockablePanel.DockablePanelWidget.GetTitle | build/lib/pyqt_widgets/navigation/dockable_panel.py:258-260 | returns the title |
| DockablePanel.DockablePanelWidget.IsFloating | build/lib/pyqt_widgets/navigation/dockable_panel.py:262-264 | returns the floating flag |
| DockablePanel.DockablePanelWidget.SetCloseable | build/lib/pyqt_widgets/navigation/dockable_panel.py:266-270 | records the flag and shows or hides an existing close button |
| DockablePanel.DockablePanelWidget.SetDetachable | build/lib/pyqt_widgets/navigation/dockable_panel.py:272-276 | records the flag and shows or hides an existing detach button |
| DockablePanel.WithPanelDistinct | build/lib/pyqt_widgets/navigation/dockable_panel.py:310-316 | adding keeps the panels distinct, appends only a new panel, and is idempotent |
| DockablePanel.AddThenRemovePanel | build/lib/pyqt_widgets/navigation/dockable_panel.py:310-328 | a new panel added and removed leaves the list as it was |
| DockablePanel.RemovePanelSpec | build/lib/pyqt_widgets/navigation/dockable_panel.py:318-328 | removing takes exactly that panel out, and an absent panel changes nothing |
| DockablePanel.DockingArea.AddPanel | build/lib/pyqt_widgets/navigation/dockable_panel.py:310-316 | the list becomes WithPanel, a new panel is reparented to the area, and panel_docked fires only for it |
| DockablePanel.DockingArea.OnPanelClosed | build/lib/pyqt_widgets/navigation/dockable_panel.py:318-322 | the panel is removed from the list and panel_undocked fires when it was there |
| DockablePanel.DockingArea.RemovePanel | build/lib/pyqt_widgets/navigation/dockable_panel.py:324-328 | a panel of the area loses its parent and is removed; another changes nothing |
| DockablePanel.DockingArea.GetPanels | build/lib/pyqt_widgets/navigation/dockable_panel.py:330-332 | returns the panels |
| DockablePanel.DockingArea.ClearPanels | build/lib/pyqt_widgets/navigation/dockable_panel.py:334-337 | no panels remain and each former panel has no parent |
| DockablePanel.TabbedDockingArea.AddPanel | build/lib/pyqt_widgets/navigation/dockable_panel.py:375-389 | a new panel is wrapped in a fresh content widget on a new tab with the panel's title; it is shown exactly when the container is, which as written it never is |
| DockablePanel.SplitterDockingArea.AddPanel | build/lib/pyqt_widgets/navigation/dockable_panel.py:412-418 | a new panel is appended to the splitter, which becomes its parent; it is shown exactly when the splitter is, which as written it never is |
| TagInput.AddedTagsKeeps | pyqt_widgets/forms/tag_input.py:234-250 | adding keeps the tags distinct, non-empty and within a positive maximum; only an accepted tag joins |
| TagInput.AddThenRemoveTag | pyqt_widgets/forms/tag_input.py:234-277 | a tag added and then removed leaves the tags as they were |
| TagInput.RemoveTagKeepsOrder | pyqt_widgets/forms/tag_input.py:262-266 | removing a present tag cuts out its position and keeps the others in order |
| TagInput.RemoveLastTag | pyqt_widgets/forms/tag_input.py:175-178 | removing the last of distinct tags drops the last position |
| TagInput.FirstOccurrencesSpec | pyqt_widgets/forms/tag_input.py:286-293 | the reference list is distinct, has no empty tag, and holds exactly the non-empty tags given |
| TagInput.CollectedIsCappedFirstOccurrences | pyqt_widgets/forms/tag_input.py:286-293 | set_tags yields the distinct non-empty tags in first-occurrence order, cut to the maximum (none for a negative one) |
| TagInput.MatchingSuggestionsSpec | pyqt_widgets/forms/tag_input.py:201-209 | a suggestion matches exactly when it contains the query ignoring case and is not a tag yet |
| TagInput.TagInputWidget.constructor | pyqt_widgets/forms/tag_input.py:81-89 | no tags, no chips, the given placeholder, suggestions and maximum |
| TagInput.TagInputWidget.Compact | pyqt_widgets/forms/tag_input.py:456-460 | the compact variant: "Tags..." and at most five tags |
| TagInput.TagInputWidget.Colored | pyqt_widgets/forms/tag_input.py:367-372 | the coloured variant: no limit, with the given colours |
| TagInput.TagInputWidget.AddTag | pyqt_widgets/forms/tag_input.py:234-260 | the tags become AddedTags, with the new tag's chip (coloured when registered, as ColoredTagInput.add_tag does), and the result says whether the signals fire |
| TagInput.TagInputWidget.RemoveTag | pyqt_widgets/forms/tag_input.py:262-277 | the tag is removed with its chip; an absent tag changes nothing |
| TagInput.TagInputWidget.ClearTags | pyqt_widgets/forms/tag_input.py:299-302 | no tags and no chips remain and the original placeholder returns |
| TagInput.TagInputWidget.SetTags | pyqt_widgets/forms/tag_input.py:286-293 | the tags become Collected of the list given |
| TagInput.TagInputWidget.GetTags | pyqt_widgets/forms/tag_input.py:295-297 | returns the tags |
| TagInput.TagInputWidget.SetSuggestions | pyqt_widgets/forms/tag_input.py:304-306 | replaces the suggestions |
| TagInput.TagInputWidget.SetMaxTags | pyqt_widgets/forms/tag_input.py:308-316 | a truthy maximum below the count keeps the tags before it (Python slicing for a negative one) |
| TagInput.TagInputWidget.RemoveTrailing | pyqt_widgets/forms/tag_input.py:313-316 | removing the excess tags one by one leaves the kept prefix |
| TagInput.TagInputWidget.OnTextChanged | pyqt_widgets/forms/tag_input.py:194-199 | non-empty text with suggestions shows the matches; otherwise the list hides |
| TagInput.TagInputWidget.ShowSuggestions | pyqt_widgets/forms/tag_input.py:201-218 | up to ten matches replace the list, which shows; no match only hides it |
| TagInput.TagInputWidget.AddTagFromInput | pyqt_widgets/forms/tag_input.py:220-226 | the stripped text, when not blank, is offered to add_tag and the field cleared |
| TagInput.TagInputWidget.ClickSuggestion | pyqt_widgets/forms/tag_input.py:228-232 | the clicked suggestion is offered to add_tag and the field cleared |
| TagInput.TagInputWidget.KeyPress | pyqt_widgets/forms/tag_input.py:173-192 | Backspace in an empty field drops the last tag; comma or semicolon adds the typed tag; Escape hides the list |
| TagInput.TagInputWidget.SetTagColor | pyqt_widgets/forms/tag_input.py:391-404 | the colour is registered and an existing chip recoloured |
| PyDict.ConcatValuesSpec | pyqt_widgets/forms/tag_input.py:360-364 | "all categories" offers exactly the tags of some category |
| PyDict.ExtendAll | pyqt_widgets/forms/tag_input.py:361-363 | the extend loop collects every category's list in key order |
| TagInput.CategoryTagInput.OnCategoryChanged | pyqt_widgets/forms/tag_input.py:352-364 | a truthy category offers its own tags, or none when unknown; otherwise all categories' tags |
| TagInput.ReadOnlyTagDisplay.UpdateDisplay | pyqt_widgets/forms/tag_input.py:427-443 | the chips are rebuilt, one non-removable chip per tag in order |
| TagInput.ReadOnlyTagDisplay.SetTags | pyqt_widgets/forms/tag_input.py:445-448 | replaces the tags and rebuilds the chips |
| TagInput.ReadOnlyTagDisplay.GetTags | pyqt_widgets/forms/tag_input.py:450-452 | returns the tags |
| TagInput.ReadOnlyTagDisplay.ClickChip | pyqt_widgets/forms/tag_input.py:438-439 | a left click on a chip emits its tag |
| SearchBoxSuggestions.MatchesSpec | pyqt_widgets/forms/search_box_suggestions.py:116-120 | a suggestion is kept exactly when it is offered and its lower-cased text contains the lower-cased query |
| SearchBoxSuggestions.MatchesAppend | pyqt_widgets/forms/search_box_suggestions.py:117-120 | the filter keeps the suggestions' order: filtering a concatenation concatenates the filtered parts |
| SearchBoxSuggestions.FilteredSpec | pyqt_widgets/forms/search_box_suggestions.py:116-120 | the shown list is a prefix of the in-order matches, at most max_suggestions long, and all matches when they fit |
| SearchBoxSuggestions.DropdownHeight | pyqt_widgets/forms/search_box_suggestions.py:142-144 | the height is at most 200 and at most 32 per row, and equals one of the two |
| SearchBoxSuggestions.DropdownHeightRows | pyqt_widgets/forms/search_box_suggestions.py:142-144 | up to six rows get 32 pixels each; seven or more are capped at 200 |
| SearchBoxSuggestions.ShowFound | pyqt_widgets/forms/search_box_suggestions.py:125-144 | the list shows exactly when there are matches, then holding them at their height; otherwise it is emptied and hidden |
| SearchBoxSuggestions.RecentItems | pyqt_widgets/forms/search_box_suggestions.py:238-259 | the recent list is a header row then one clock-marked row per recent search, newest first |
| SearchBoxSuggestions.EnterRequest | pyqt_widgets/forms/search_box_suggestions.py:153-158 | a requested search is the stripped, non-empty text |
| SearchBoxSuggestions.EnterRequestSpec | pyqt_widgets/forms/search_box_suggestions.py:153-158 | Return asks for a search exactly when the text is not all whitespace |
| SearchBoxSuggestions.TimedRequest | pyqt_widgets/forms/search_box_suggestions.py:166-170 | a timed search is the stripped, non-empty text of at least min_chars characters |
| SearchBoxSuggestions.TimedRequestSpec | pyqt_widgets/forms/search_box_suggestions.py:166-170 | the timer asks exactly when the text is not blank and its stripped form meets min_chars, and then asks for what Return would |
| SearchBoxSuggestions.RecordSearch | pyqt_widgets/forms/search_box_suggestions.py:269-279 | a recorded search comes first; the list stays repeat-free and within the cap (5 recent, 20 history); only a new search on a full list drops the oldest entry |
| SearchBoxSuggestions.RecordSearchKeeps | pyqt_widgets/forms/search_box_suggestions.py:269-279 | unless a new search meets a full list, every earlier search stays |
| SearchBoxSuggestions.WithSuggestionSpec | pyqt_widgets/forms/search_box_suggestions.py:176-179 | add_suggestion offers exactly one more text, keeps a repeat-free list repeat-free, and adding again changes nothing |
| SearchBoxSuggestions.SearchBox.constructor | pyqt_widgets/forms/search_box_suggestions.py:19-27 | empty text and suggestions, at most 10 suggestions, min_chars 1, a 300 ms delay, the list hidden at height 200 |
| SearchBoxSuggestions.SearchBox.FilterOutcomeShowsRows | pyqt_widgets/forms/search_box_suggestions.py:226-259 | whatever the filter leaves, a shown list has rows |
| SearchBoxSuggestions.SearchBox.FilterSuggestions | pyqt_widgets/forms/search_box_suggestions.py:109-123 | an empty or short query only hides the list; a longer one shows its capped matches; the advanced box offers recent searches for an empty query |
| SearchBoxSuggestions.SearchBox.OnTextChanged | pyqt_widgets/forms/search_box_suggestions.py:95-107 | the text is echoed and filtered, and the timer restarts exactly when the text reaches min_chars; otherwise the list hides |
| SearchBoxSuggestions.SearchBox.SetText | pyqt_widgets/forms/search_box_suggestions.py:207-209 | a new text runs the text-changed handler; the same text changes nothing |
| SearchBoxSuggestions.SearchBox.GetText | pyqt_widgets/forms/search_box_suggestions.py:203-205 | returns the text |
| SearchBoxSuggestions.SearchBox.Clear | pyqt_widgets/forms/search_box_suggestions.py:211-214 | the text is emptied and the list hides |
| SearchBoxSuggestions.SearchBox.ClickSuggestion | pyqt_widgets/forms/search_box_suggestions.py:146-151 | the clicked row becomes the text, the list hides, and the row is reported as selected |
| SearchBoxSuggestions.SearchBox.ReturnPressed | pyqt_widgets/forms/search_box_suggestions.py:153-158 | a non-blank text hides the list and asks for its stripped form; the advanced box records it as recent and the history box in its history |
| SearchBoxSuggestions.SearchBox.SearchTimerFires | pyqt_widgets/forms/search_box_suggestions.py:166-170 | the pending timer ends and asks for the timed search, if any |
| SearchBoxSuggestions.SearchBox.FocusOut | pyqt_widgets/forms/search_box_suggestions.py:160-163 | the list hides |
| SearchBoxSuggestions.SearchBox.SetSuggestions | pyqt_widgets/forms/search_box_suggestions.py:172-174 | replaces the suggestions |
| SearchBoxSuggestions.SearchBox.AddSuggestion | pyqt_widgets/forms/search_box_suggestions.py:176-179 | appends a text only when it is not already offered |
| SearchBoxSuggestions.SearchBox.ClearSuggestions | pyqt_widgets/forms/search_box_suggestions.py:181-184 | nothing is offered and the list hides |
| SearchBoxSuggestions.SearchBox.SetPlaceholder | pyqt_widgets/forms/search_box_suggestions.py:186-189 | replaces the placeholder |
| SearchBoxSuggestions.SearchBox.SetMaxSuggestions | pyqt_widgets/forms/search_box_suggestions.py:191-193 | replaces the maximum |
| SearchBoxSuggestions.SearchBox.SetMinChars | pyqt_widgets/forms/search_box_suggestions.py:195-197 | replaces the minimum query length |
| SearchBoxSuggestions.SearchBox.SetSearchDelay | pyqt_widgets/forms/search_box_suggestions.py:199-201 | replaces the timer delay |
| SearchBoxSuggestions.SearchBox.ClearRecentSearches | pyqt_widgets/forms/search_box_suggestions.py:281-283 | the recent searches are emptied |
| SearchBoxSuggestions.SearchBox.GetRecentSearches | pyqt_widgets/forms/search_box_suggestions.py:285-287 | returns the recent searches, newest first |
| SearchBoxSuggestions.SearchBox.GetSearchHistory | pyqt_widgets/forms/search_box_suggestions.py:404-406 | returns the history, newest first |
| SearchBoxSuggestions.SearchBox.ClearHistory | pyqt_widgets/forms/search_box_suggestions.py:408-410 | the history is emptied |
| SearchBoxSuggestions.SearchBox.LoadHistory | pyqt_widgets/forms/search_box_suggestions.py:412-414 | the history becomes the first 20 entries of the given list |
| SearchBoxSuggestions.SearchBox.AddCategory | pyqt_widgets/forms/search_box_suggestions.py:348-351 | the category's list is stored (replacing a same-named one) and the combo gains an entry with the lower-cased name as data |
| SearchBoxSuggestions.SearchBox.SelectCategory | pyqt_widgets/forms/search_box_suggestions.py:312-373 | picking an entry runs the category handler only when the shown text changes; it then makes the entry's data current, offers that category's suggestions and filters a non-empty text against them; an unchanged text changes nothing |
| SearchBoxSuggestions.SearchBox.OnCategoryChanged | pyqt_widgets/forms/search_box_suggestions.py:353-373 | the entry's data becomes current; "all" offers every category's list in order, another the named category's list or none; a text of at least min_chars shows its matches among the new suggestions, a shorter non-empty one hides the list, and an empty one leaves the list alone |
| SearchBoxSuggestions.RecentSearchesHiddenWhenEmptied | pyqt_widgets/forms/search_box_suggestions.py:95-107 | as written, the emptied advanced box shows its recent searches and then hides them whenever min_chars is at least 1 |
| SearchBoxSuggestions.IntendedShowsRecentWhenEmptied | pyqt_widgets/forms/search_box_suggestions.py:226-233 | with the corrected handler, the emptied advanced box shows its recent searches |
| SearchBoxSuggestions.IntendedDiffersOnlyWhenEmptied | pyqt_widgets/forms/search_box_suggestions.py:103-107 | the corrected handler differs from the written one only for the emptied advanced box |
| FormStepper.NavFor | pyqt_widgets/forms/form_stepper.py:161-177 | Previous is enabled exactly past the first step; Finish shows exactly on the last step and Next exactly when Finish does not |
| FormStepper.AfterRemoval | pyqt_widgets/forms/form_stepper.py:119-121 | after a removal the current step is a real step (0 when none are left), unchanged when still in range, never moved forward |
| FormStepper.StepProgressIndicator.constructor | pyqt_widgets/forms/form_stepper.py:229-234 | no steps, step 0, nothing completed |
| FormStepper.StepProgressIndicator.AddStep | pyqt_widgets/forms/form_stepper.py:236-239 | appends the title and description |
| FormStepper.StepProgressIndicator.RemoveStep | pyqt_widgets/forms/form_stepper.py:241-245 | removes an index in range, ignores others |
| FormStepper.StepProgressIndicator.SetCurrentStep | pyqt_widgets/forms/form_stepper.py:247-250 | replaces the current step |
| FormStepper.StepProgressIndicator.SetCompletedSteps | pyqt_widgets/forms/form_stepper.py:252-255 | replaces the completed set |
| FormStepper.FormStepperWidget.constructor | pyqt_widgets/forms/form_stepper.py:20-26 | no steps, step 0, nothing completed, no data, Previous disabled, Next shown, Finish hidden |
| FormStepper.FormStepperWidget.UpdateNavigation | pyqt_widgets/forms/form_stepper.py:161-177 | an empty form leaves the buttons alone; otherwise they follow the current step |
| FormStepper.FormStepperWidget.UpdateNavigationIntended | pyqt_widgets/forms/form_stepper.py:161-177 | as intended: an empty form offers neither Previous, Next nor Finish; otherwise the buttons follow the current step |
| FormStepper.FormStepperWidget.UpdateCurrentStep | pyqt_widgets/forms/form_stepper.py:154-159 | the indicator and the buttons follow the current step, which is reported |
| FormStepper.FormStepperWidget.AddStep | pyqt_widgets/forms/form_stepper.py:95-110 | the step is appended to the form and the indicator, and the buttons follow |
| FormStepper.FormStepperWidget.RemoveStep | pyqt_widgets/forms/form_stepper.py:112-123 | an index in range is removed and a current step past the end is pulled back to the last step or 0; other indices change nothing |
| FormStepper.FormStepperWidget.RemoveStepIntended | pyqt_widgets/forms/form_stepper.py:112-123 | as RemoveStep, but once no step is left no navigation button is offered |
| FormStepper.FormStepperWidget.NextStep | pyqt_widgets/forms/form_stepper.py:125-140 | with a later step and no rejecting validator, the step is completed and the next becomes current; otherwise nothing changes |
| FormStepper.FormStepperWidget.PreviousStep | pyqt_widgets/forms/form_stepper.py:142-146 | moves back only past the first step and completes nothing |
| FormStepper.FormStepperWidget.GoToStep | pyqt_widgets/forms/form_stepper.py:148-152 | moves only to an index in range and completes nothing |
| FormStepper.FormStepperWidget.FinishForm | pyqt_widgets/forms/form_stepper.py:179-192 | unless the validator rejects, the current step is completed and a copy of all data is handed out; on a form emptied by remove_step the click fails with IndexError and changes nothing |
| FormStepper.EmptiedFormFinishFails | pyqt_widgets/forms/form_stepper.py:112-192 | as written, a form whose only step was removed still shows Finish, and clicking it fails with IndexError |
| FormStepper.EmptiedFormNoFinishIntended | pyqt_widgets/forms/form_stepper.py:112-177 | with the intended navigation, a form whose only step was removed does not offer Finish |
| FormStepper.FormStepperWidget.SetStepData | pyqt_widgets/forms/form_stepper.py:194-196 | stores the step's data |
| FormStepper.FormStepperWidget.GetStepData | pyqt_widgets/forms/form_stepper.py:198-200 | the stored data, or an empty dictionary |
| FormStepper.FormStepperWidget.GetAllData | pyqt_widgets/forms/form_stepper.py:202-204 | all data |
| FormStepper.FormStepperWidget.GetCurrentStep | pyqt_widgets/forms/form_stepper.py:206-208 | the current step |
| FormStepper.FormStepperWidget.GetStepCount | pyqt_widgets/forms/form_stepper.py:210-212 | the number of steps |
| FormStepper.FormStepperWidget.IsStepCompleted | pyqt_widgets/forms/form_stepper.py:214-216 | whether the index is in the completed set |
| FormStepper.FormStepperWidget.ResetForm | pyqt_widgets/forms/form_stepper.py:218-223 | back to step 0 with nothing completed and no data |
| FormStepper.StepCaptionInjective | pyqt_widgets/forms/form_stepper.py:395-401 | two steps of one simple stepper never show the same caption |
| FormStepper.CaptionParts | pyqt_widgets/forms/form_stepper.py:398-401 | the caption is "Step ", the step number, and the rest from " of " on |
| FormStepper.SimpleFormStepper.constructor | pyqt_widgets/forms/form_stepper.py:346-363 | a non-empty list of titles; step 0 with Previous disabled |
| FormStepper.SimpleFormStepper.UpdateUi | pyqt_widgets/forms/form_stepper.py:395-406 | the bar, caption and buttons follow the step, which is reported |
| FormStepper.SimpleFormStepper.NextStep | pyqt_widgets/forms/form_stepper.py:383-405 | moves on only before the last title, keeping the step within the titles and reporting it; after a move Previous is enabled past the first title and Next before the last, and a refused move leaves both buttons as they were |
| FormStepper.SimpleFormStepper.PreviousStep | pyqt_widgets/forms/form_stepper.py:389-405 | moves back only past the first title and reports the new step; after a move Previous is enabled past the first title and Next before the last, and a refused move leaves both buttons as they were |
| FormStepper.SimpleFormStepper.GetCurrentStep | pyqt_widgets/forms/form_stepper.py:408-410 | the current step |
| InlineEdit.WithoutSeparators | pyqt_widgets/forms/inline_edit_label.py:276-277 | the counted text is no longer than the input and holds only non-separator characters of it |
| InlineEdit.PhoneValidCounts | pyqt_widgets/forms/inline_edit_label.py:271-277 | an accepted phone number has at least ten characters, and what is counted is digits or whitespace other than the space |
| InlineEdit.NoSeparatorsKept | pyqt_widgets/forms/inline_edit_label.py:276-277 | a text without separators is counted whole |
| InlineEdit.DigitsArePhone | pyqt_widgets/forms/inline_edit_label.py:271-277 | any ten or more digits are accepted as a phone number |
| InlineEdit.TabsPassAsPhone | pyqt_widgets/forms/inline_edit_label.py:271-277 | as written, ten tabs are accepted as a phone number though they hold no digit |
| InlineEdit.OnlyTabs | pyqt_widgets/forms/inline_edit_label.py:275-277 | tabs match the pattern, are not removed before counting, and are no digits |
| InlineEdit.DigitCount | pyqt_widgets/forms/inline_edit_label.py:276-277 | the number of digits is at most the length |
| InlineEdit.OtherSpaceCount | pyqt_widgets/forms/inline_edit_label.py:276-277 | the number of non-space whitespace characters is at most the length |
| InlineEdit.CountedCharacters | pyqt_widgets/forms/inline_edit_label.py:275-277 | for text the pattern accepts, the counted length is the digits plus the non-space whitespace |
| InlineEdit.IntendedPhoneValidSpec | pyqt_widgets/forms/inline_edit_label.py:271-277 | the corrected check (ten digits) only rejects more, rejects ten tabs, and agrees with the written one when the only whitespace is the space |
| InlineEdit.NoOtherSpace | pyqt_widgets/forms/inline_edit_label.py:275-277 | text whose only whitespace is the space has no other whitespace to count |
| InlineEdit.UrlValidStart | pyqt_widgets/forms/inline_edit_label.py:279-283 | an accepted URL starts with http:// or https://, then an allowed character and one more |
| InlineEdit.HostAfterSchemeValid | pyqt_widgets/forms/inline_edit_label.py:279-283 | a scheme followed by a whitespace-free host of two or more characters not starting with / $ . ? # is accepted |
| InlineEdit.UrlRejects | pyqt_widgets/forms/inline_edit_label.py:279-283 | another scheme, or a dot right after the slashes, is rejected |
| InlineEdit.EmailFromParts | pyqt_widgets/forms/inline_edit_label.py:257-261 | a nonempty local part of letters, digits and . _ % + -, an @, a nonempty domain of letters, digits, . and -, a dot and two or more letters is accepted |
| InlineEdit.EmailShape | pyqt_widgets/forms/inline_edit_label.py:257-261 | an accepted address has exactly one @, not first, and after it a dot followed by at least two more characters |
| InlineEdit.EmailNeedsAt | pyqt_widgets/forms/inline_edit_label.py:257-261 | a text without an @ is refused |
| InlineEdit.DigitsLen | pyqt_widgets/forms/inline_edit_label.py:263-269 | the digit run found at a position starts and ends with a digit and stays inside the text |
| InlineEdit.DigitsLenRun | pyqt_widgets/forms/inline_edit_label.py:263-269 | a run of digits ending at the text's end or before a character that is neither a digit nor _ is found whole |
| InlineEdit.DigitsUnderscores | pyqt_widgets/forms/inline_edit_label.py:263-269 | inside a digit run every _ stands between two digits, as float() requires |
| InlineEdit.DigitsAreNumber | pyqt_widgets/forms/inline_edit_label.py:263-269 | every nonempty string of digits is accepted as a number |
| InlineEdit.PointDecimal | pyqt_widgets/forms/inline_edit_label.py:263-269 | digits, a point and digits, with digits on at least one side, form a decimal |
| InlineEdit.DecimalEnds | pyqt_widgets/forms/inline_edit_label.py:263-269 | a decimal starts with a digit or a point and ends with a digit or a point |
| InlineEdit.DecimalNumber | pyqt_widgets/forms/inline_edit_label.py:263-269 | every decimal is accepted as a number |
| InlineEdit.NegativeDecimalNumber | pyqt_widgets/forms/inline_edit_label.py:263-269 | every decimal with a minus sign in front is accepted as a number |
| InlineEdit.NumberHasDigit | pyqt_widgets/forms/inline_edit_label.py:263-269 | apart from inf, infinity and nan, an accepted number has a digit |
| InlineEdit.ValidationFor | pyqt_widgets/forms/inline_edit_label.py:233-244 | exactly the four known type names pick a check |
| InlineEdit.PlaceholderFor | pyqt_widgets/forms/inline_edit_label.py:246-255 | an unknown type name gets "Click to edit" |
| InlineEdit.PlaceholderTellsValidation | pyqt_widgets/forms/inline_edit_label.py:246-255 | among the four checks, two type names share a prompt exactly when they share a check |
| InlineEdit.Accepts | pyqt_widgets/forms/inline_edit_label.py:93-97 | no check accepts everything; e-mail, number, phone and URL follow their own validators; a caller's function gives its own verdict |
| InlineEdit.DisplayFor | pyqt_widgets/forms/inline_edit_label.py:116-123 | the label shows the text, or the placeholder in the secondary colour exactly when the text is empty |
| InlineEdit.InlineEditLabel.constructor | pyqt_widgets/forms/inline_edit_label.py:18-49 | the label shows the text or placeholder, the field holds the text and is hidden, and editing is off |
| InlineEdit.InlineEditLabel.Validated | pyqt_widgets/forms/inline_edit_label.py:227-231 | the validator and the prompt are the ones the type name picks |
| InlineEdit.InlineEditLabel.StartEditing | pyqt_widgets/forms/inline_edit_label.py:73-84 | ignored while editing; otherwise the field replaces the label and the start is reported |
| InlineEdit.InlineEditLabel.DoubleClickLabel | pyqt_widgets/forms/inline_edit_label.py:63-63 | a double click starts editing, except on the quick label whose handler is removed |
| InlineEdit.InlineEditLabel.PressLabel | pyqt_widgets/forms/inline_edit_label.py:360-366 | on the quick label a left click starts editing; nothing else does |
| InlineEdit.InlineEditLabel.TypeInput | pyqt_widgets/forms/inline_edit_label.py:45-49 | typing changes only the field's text |
| InlineEdit.InlineEditLabel.FinishEditing | pyqt_widgets/forms/inline_edit_label.py:86-114 | nothing outside editing; a stripped text the validator rejects restores the field and editing goes on; an accepted one is stored, editing ends, a change is reported and the finish always is; the multi-line editor (193-215) stores every text without consulting the validator |
| InlineEdit.InlineEditLabel.PressReturn | pyqt_widgets/forms/inline_edit_label.py:48-114 | Return runs the finish twice (returnPressed, then editingFinished): an accepted entry ends editing at the first run; a refused one puts the stored text back, and the second run ends editing with the stored text unless the validator refuses that too |
| InlineEdit.ReturnOnRefusedEntryEndsEditing | pyqt_widgets/forms/inline_edit_label.py:48-114 | an e-mail editor holding a valid address and given a malformed entry leaves editing on Return with the address, and reports the finish |
| InlineEdit.InlineEditLabel.CancelEditing | pyqt_widgets/forms/inline_edit_label.py:153-157 | the stored text is put back and then finished like typed text, so it is stripped and checked again |
| InlineEdit.InlineEditLabel.SetText | pyqt_widgets/forms/inline_edit_label.py:125-129 | the text is stored unstripped, copied into the field and shown |
| InlineEdit.InlineEditLabel.GetText | pyqt_widgets/forms/inline_edit_label.py:131-133 | the stored text |
| InlineEdit.InlineEditLabel.SetPlaceholder | pyqt_widgets/forms/inline_edit_label.py:135-139 | the prompt changes; the label is redrawn only when it shows the prompt |
| InlineEdit.InlineEditLabel.SetValidation | pyqt_widgets/forms/inline_edit_label.py:141-143 | the validator is replaced |
| InlineEdit.InlineEditLabel.IsEditing | pyqt_widgets/forms/inline_edit_label.py:145-147 | whether editing is on |
| InlineEdit.InlineEditGroup.constructor | pyqt_widgets/forms/inline_edit_label.py:291-294 | no editors |
| InlineEdit.InlineEditGroup.Texts | pyqt_widgets/forms/inline_edit_label.py:338-340 | each editor's text, in order |
| InlineEdit.InlineEditGroup.Values | pyqt_widgets/forms/inline_edit_label.py:338-340 | each name with its editor's text, in insertion order |
| InlineEdit.InlineEditGroup.AddEditor | pyqt_widgets/forms/inline_edit_label.py:304-330 | a fresh editor with the type's check and prompt is stored under the name, replacing any earlier one in its place |
| InlineEdit.InlineEditGroup.Register | pyqt_widgets/forms/inline_edit_label.py:329-329 | storing under a name is a dictionary put that keeps names and editors distinct |
| InlineEdit.InlineEditGroup.GetEditor | pyqt_widgets/forms/inline_edit_label.py:348-350 | the editor under the name, or none |
| InlineEdit.InlineEditGroup.SetValues | pyqt_widgets/forms/inline_edit_label.py:342-346 | every editor whose name is given takes that value; the others keep their text |
| InlineEdit.InlineEditGroup.SetNamed | pyqt_widgets/forms/inline_edit_label.py:345-346 | only the editor under the name changes its text |
| InlineEdit.InlineEditGroup.FinishEdit | pyqt_widgets/forms/inline_edit_label.py:326-336 | a change in one editor reports all current values |
| QtRange.Clamp | pyqt_widgets/forms/slider_with_input.py:197-205 | the value brought into the range: unchanged inside it, the nearer limit outside |
| QtRange.RangeControl.constructor | pyqt_widgets/forms/slider_with_input.py:48-48 | a control starts at 0 in the range 0 to 99 |
| QtRange.RangeControl.SetValue | pyqt_widgets/forms/slider_with_input.py:51-51 | the value is clamped into the range, and reported changed exactly when it moved |
| QtRange.RangeControl.SetMinimum | pyqt_widgets/forms/slider_with_input.py:49-49 | the minimum is set, the maximum raised to it if below, and the value clamped |
| QtRange.RangeControl.SetMaximum | pyqt_widgets/forms/slider_with_input.py:50-50 | the maximum is set, the minimum lowered to it if above, and the value clamped |
| QtRange.RangeControl.SetRange | pyqt_widgets/forms/slider_with_input.py:341-341 | the range is set with the maximum raised to the minimum if below, and the value clamped |
| SliderWithInput.SuffixText | pyqt_widgets/forms/slider_with_input.py:242-248 | the spin box suffix is empty exactly for an empty suffix, otherwise a space then the suffix |
| SliderWithInput.SliderWithInputWidget.constructor | pyqt_widgets/forms/slider_with_input.py:18-28 | both controls get the limits and the clamped value; the value reported is the one given |
| SliderWithInput.SliderWithInputWidget.OnSliderChanged | pyqt_widgets/forms/slider_with_input.py:164-179 | as intended, with the spin box handed an integer: ignored while the guard is set; otherwise the value is taken, the spin box follows without re-entering, and value_changed fires once |
| SliderWithInput.SliderWithInputWidget.OnInputChanged | pyqt_widgets/forms/slider_with_input.py:181-195 | the same with the spin box leading and the slider following |
| SliderWithInput.SliderWithInputWidget.SlideTo | pyqt_widgets/forms/slider_with_input.py:164-179 | as intended: a slider move that changes its position makes the spin box show the same number and fires value_changed exactly once |
| SliderWithInput.SliderWithInputWidget.OnSliderChangedAsWritten | pyqt_widgets/forms/slider_with_input.py:164-176 | as written, with no decimals: the value is taken, the integer spin box refuses the float with TypeError, nothing is emitted and the guard stays set; with the guard already set, nothing happens |
| SliderWithInput.SliderWithInputWidget.SlideToAsWritten | pyqt_widgets/forms/slider_with_input.py:52-176 | as written: a slider move that changes the position raises TypeError, takes the value, leaves the spin box at its number and the guard set, and emits nothing |
| SliderWithInput.SliderWithInputWidget.TypeValue | pyqt_widgets/forms/slider_with_input.py:181-195 | a spin box change makes the slider show the same number and fires value_changed exactly once |
| SliderWithInput.SliderWithInputWidget.SetValue | pyqt_widgets/forms/slider_with_input.py:197-205 | a value outside the limits is ignored; one inside is taken by the value and both controls, and nothing is emitted |
| SliderWithInput.SliderWithInputWidget.SetValueFloat | pyqt_widgets/forms/slider_with_input.py:197-205 | set_value handed a float: within the limits the value is taken and the slider moves, then the spin box raises TypeError and the guard stays set; outside them nothing changes |
| SliderWithInput.SliderWithInputWidget.GetValue | pyqt_widgets/forms/slider_with_input.py:207-209 | the value |
| SliderWithInput.SliderWithInputWidget.SetRange | pyqt_widgets/forms/slider_with_input.py:211-231 | as intended: the controls take the new range and agree; with ordered limits the value ends inside them; a range already holding the value moves and emits nothing |
| SliderWithInput.SliderWithInputWidget.FollowLimits | pyqt_widgets/forms/slider_with_input.py:217-221 | as intended: after the four limit changes both controls share the new range and show the same number |
| SliderWithInput.SliderWithInputWidget.SliderLimit | pyqt_widgets/forms/slider_with_input.py:217-218 | as intended: a slider limit change that clamps the position fires the slider handler, which the spin box follows |
| SliderWithInput.SliderWithInputWidget.InputLimit | pyqt_widgets/forms/slider_with_input.py:220-221 | a spin box limit change that clamps its number fires its handler, which the slider follows |
| SliderWithInput.SliderWithInputWidget.GetRange | pyqt_widgets/forms/slider_with_input.py:233-235 | the limits |
| SliderWithInput.SliderWithInputWidget.SetCaption | pyqt_widgets/forms/slider_with_input.py:237-240 | only the stored label text changes |
| SliderWithInput.SliderWithInputWidget.SetSuffix | pyqt_widgets/forms/slider_with_input.py:242-248 | the spin box shows the new suffix |
| SliderWithInput.Move | pyqt_widgets/forms/slider_with_input.py:295-311 | after moving either end the pair of ends is ordered |
| SliderWithInput.MovesOrdered | pyqt_widgets/forms/slider_with_input.py:295-311 | after any non-empty series of end moves the ends are ordered, whatever the starting pair |
| SliderWithInput.MoveLands | pyqt_widgets/forms/slider_with_input.py:295-311 | the moved end takes the value, and the other end stays exactly when it is not crossed |
| SliderWithInput.MoveIdempotent | pyqt_widgets/forms/slider_with_input.py:295-311 | repeating a move changes nothing more |
| SliderWithInput.RangeSliderWidget.constructor | pyqt_widgets/forms/slider_with_input.py:256-293 | one slider widget per end, sharing the given limits, with the given ends |
| SliderWithInput.RangeSliderWidget.OnMinChanged | pyqt_widgets/forms/slider_with_input.py:295-302 | as intended, with the slider handed an integer: the pair becomes the lower-end move of the old pair; a crossed upper end and its slider follow |
| SliderWithInput.RangeSliderWidget.OnMaxChanged | pyqt_widgets/forms/slider_with_input.py:304-311 | as intended: the pair becomes the upper-end move of the old pair; a crossed lower end and its slider follow |
| SliderWithInput.RangeSliderWidget.OnMinChangedAsWritten | pyqt_widgets/forms/slider_with_input.py:295-302 | as written: a lower end crossing the upper end within the limits raises TypeError after the upper end has moved, so the lower end is not stored, range_changed does not fire and the upper slider keeps its guard set; any other lower end is stored and reported |
| SliderWithInput.RangeSliderWidget.OnMaxChangedAsWritten | pyqt_widgets/forms/slider_with_input.py:304-311 | as written: the same for an upper end crossing the lower end |
| SliderWithInput.RangeSliderWidget.DragMin | pyqt_widgets/forms/slider_with_input.py:278-302 | as intended: a lower slider move fires range_changed once with the moved, ordered pair |
| SliderWithInput.RangeSliderWidget.DragMax | pyqt_widgets/forms/slider_with_input.py:290-311 | as intended: an upper slider move fires range_changed once with the moved, ordered pair |
| SliderWithInput.RangeSliderWidget.SetRange | pyqt_widgets/forms/slider_with_input.py:313-319 | both ends are taken as given, in any order, and each slider shows its end when within the limits |
| SliderWithInput.RangeSliderWidget.GetRange | pyqt_widgets/forms/slider_with_input.py:321-323 | the two ends |
| SliderWithInput.SliderGoesSilent | pyqt_widgets/forms/slider_with_input.py:164-195 | as written, after the slider moves from 50 to 60 nothing is emitted, and a number typed afterwards neither fires value_changed nor moves the slider |
| SliderWithInput.SliderFollowsIntended | pyqt_widgets/forms/slider_with_input.py:164-195 | as intended, the same two moves each fire value_changed once and the slider ends at the typed number |
| SliderWithInput.RangeCrossingAsWritten | pyqt_widgets/forms/slider_with_input.py:295-302 | as written, a lower end of 90 on the range 20..80 moves the upper end to 90, keeps the lower end at 20 and reports nothing |
| SliderWithInput.RangeCrossingIntended | pyqt_widgets/forms/slider_with_input.py:295-302 | as intended, the same lower end gives and reports the range 90..90 |
| SliderWithInput.SimpleSliderInput.constructor | pyqt_widgets/forms/slider_with_input.py:331-357 | the slider clamps the initial value while the label shows it as given |
| SliderWithInput.SimpleSliderInput.SetValue | pyqt_widgets/forms/slider_with_input.py:359-370 | a position change is shown by the label and emitted once; no change emits nothing |
| SliderWithInput.SimpleSliderInput.GetValue | pyqt_widgets/forms/slider_with_input.py:364-366 | the slider's position |
| ToggleSwitch.ThumbEnd | build/lib/pyqt_widgets/forms/toggle_switch.py:51-51 | the thumb rests at end 1 exactly when the switch is on, else at 0 |
| ToggleSwitch.WidthFor | build/lib/pyqt_widgets/forms/toggle_switch.py:38-41 | the widget is the track's 50 wide, plus 100 exactly when there is a caption |
| ToggleSwitch.IconFor | build/lib/pyqt_widgets/forms/toggle_switch.py:253-254 | the on icon when on, the off icon when off |
| ToggleSwitch.ToggleSwitchWidget.constructor | build/lib/pyqt_widgets/forms/toggle_switch.py:16-51 | the thumb starts at the end of the initial state; a caption label exists, and is shown, exactly for a non-empty text |
| ToggleSwitch.ToggleSwitchWidget.WithIcons | build/lib/pyqt_widgets/forms/toggle_switch.py:232-235 | an icon switch has no caption and keeps both icons |
| ToggleSwitch.ToggleSwitchWidget.Icon | build/lib/pyqt_widgets/forms/toggle_switch.py:237-263 | an icon switch draws the icon of its state; a plain switch none |
| ToggleSwitch.ToggleSwitchWidget.SetChecked | build/lib/pyqt_widgets/forms/toggle_switch.py:79-90 | the current state changes and emits nothing; the other state is taken, the thumb goes to its end, and toggled carries it once |
| ToggleSwitch.ToggleSwitchWidget.Toggle | build/lib/pyqt_widgets/forms/toggle_switch.py:75-77 | the state flips and toggled carries the new state |
| ToggleSwitch.ToggleSwitchWidget.Press | build/lib/pyqt_widgets/forms/toggle_switch.py:70-73 | a left click toggles; another button does nothing |
| ToggleSwitch.ToggleSwitchWidget.IsChecked | build/lib/pyqt_widgets/forms/toggle_switch.py:92-94 | the state |
| ToggleSwitch.ToggleSwitchWidget.SetText | build/lib/pyqt_widgets/forms/toggle_switch.py:96-102 | an existing caption shows the text; otherwise the widget is resized for it and gets a caption label when it is not empty, but the re-run setup's `QHBoxLayout(self)` (toggle_switch.py:26) is refused, so that label is never shown |
| ToggleSwitch.ToggleSwitchWidget.SetTextIntended | build/lib/pyqt_widgets/forms/toggle_switch.py:96-102 | as intended, a caption made for a switch without one is shown beside the track |
| ToggleSwitch.CaptionHiddenAfterSetText | build/lib/pyqt_widgets/forms/toggle_switch.py:24-47 | as written, a switch built without a caption and then given "Wi-Fi" has a caption label that is not on screen |
| ToggleSwitch.CaptionShownAfterSetTextIntended | build/lib/pyqt_widgets/forms/toggle_switch.py:96-102 | as intended, the same switch shows "Wi-Fi" |
| ToggleSwitch.ToggleSwitchWidget.GetText | build/lib/pyqt_widgets/forms/toggle_switch.py:104-106 | the text |
| ToggleSwitch.ToggleSwitchWidget.SetAnimationDuration | build/lib/pyqt_widgets/forms/toggle_switch.py:108-111 | the duration is stored |
| ToggleSwitch.ToggleTwice | build/lib/pyqt_widgets/forms/toggle_switch.py:75-77 | two toggles restore the state and the thumb, emitting the flipped then the original state |
| ToggleSwitch.LabeledToggleSwitch.constructor | build/lib/pyqt_widgets/forms/toggle_switch.py:165-193 | the inner switch starts in the given state and that state's caption is emphasised |
| ToggleSwitch.LabeledToggleSwitch.OnToggled | build/lib/pyqt_widgets/forms/toggle_switch.py:195-199 | the state is copied, its caption emphasised, and the signal passed on |
| ToggleSwitch.LabeledToggleSwitch.Relay | build/lib/pyqt_widgets/forms/toggle_switch.py:185-185 | what the inner switch emits reaches the handler, and nothing else does |
| ToggleSwitch.LabeledToggleSwitch.SetChecked | build/lib/pyqt_widgets/forms/toggle_switch.py:213-215 | the state follows the inner switch; a change is mirrored and emitted once, the same state emits nothing |
| ToggleSwitch.LabeledToggleSwitch.Press | build/lib/pyqt_widgets/forms/toggle_switch.py:70-73 | a left click on the inner switch flips both and emits the new state |
| ToggleSwitch.LabeledToggleSwitch.IsChecked | build/lib/pyqt_widgets/forms/toggle_switch.py:217-219 | the inner switch's state, which the widget mirrors |
| ToggleSwitch.LabeledToggleSwitch.SetLabels | build/lib/pyqt_widgets/forms/toggle_switch.py:221-226 | both captions change |
| ToggleSwitch.ToggleSwitchGroup.constructor | build/lib/pyqt_widgets/forms/toggle_switch.py:271-274 | no switches |
| ToggleSwitch.ToggleSwitchGroup.States | build/lib/pyqt_widgets/forms/toggle_switch.py:296-298 | every switch's name with its state, in insertion order |
| ToggleSwitch.ToggleSwitchGroup.AddSwitch | build/lib/pyqt_widgets/forms/toggle_switch.py:283-289 | a fresh switch with the caption and state is stored under the name, replacing any earlier one |
| ToggleSwitch.ToggleSwitchGroup.Register | build/lib/pyqt_widgets/forms/toggle_switch.py:288-288 | storing under a name is a dictionary put keeping names and switches distinct |
| ToggleSwitch.ToggleSwitchGroup.GetSwitch | build/lib/pyqt_widgets/forms/toggle_switch.py:306-308 | the switch under the name, or none |
| ToggleSwitch.ToggleSwitchGroup.SetNamed | build/lib/pyqt_widgets/forms/toggle_switch.py:303-304 | only the named switch takes the state; a change emits every state |
| ToggleSwitch.ToggleSwitchGroup.SetStates | build/lib/pyqt_widgets/forms/toggle_switch.py:300-304 | every switch whose name is given takes its state, unknown names are ignored, other switches keep theirs |
| ToggleSwitch.ToggleSwitchGroup.Press | build/lib/pyqt_widgets/forms/toggle_switch.py:286-294 | clicking a switch flips it alone and emits every state |
| DateRangePicker.PresetRange | build/lib/pyqt_widgets/forms/date_range_picker.py:272-285 | an offsets preset spans today plus its two offsets; This month spans the first of the month to today |
| DateRangePicker.PresetsOrdered | build/lib/pyqt_widgets/forms/date_range_picker.py:206-212 | every preset range is ordered and ends by today: Today, Yesterday, the last 7 and 30 days including today, and This month |
| DateRangePicker.PresetLabels | build/lib/pyqt_widgets/forms/date_range_picker.py:206-212 | five presets with five different captions |
| DateRangePicker.ClickOrdered | build/lib/pyqt_widgets/forms/date_range_picker.py:287-301 | a calendar click keeps the pick ordered, and the clicked day is one of its ends |
| DateRangePicker.TwoClicks | build/lib/pyqt_widgets/forms/date_range_picker.py:289-299 | after no or a complete selection, two clicks pick the range between the two days in order, and a third click starts over |
| DateRangePicker.DateRangeCalendarPopup.Intended | build/lib/pyqt_widgets/forms/date_range_picker.py:190-270 | with the calendar laid out in the popup itself: nothing picked, and the calendar shows the start date |
| DateRangePicker.NewCalendarPopup | build/lib/pyqt_widgets/forms/date_range_picker.py:190-200 | as written, the constructor raises AttributeError: the popup base class has no `content_widget` |
| DateRangePicker.DateRangeCalendarPopup.SelectPreset | build/lib/pyqt_widgets/forms/date_range_picker.py:272-285 | the preset range, ordered, is picked and emitted |
| DateRangePicker.DateRangeCalendarPopup.CalendarClicked | build/lib/pyqt_widgets/forms/date_range_picker.py:287-301 | the pick follows the click and date_selected carries the day |
| DateRangePicker.DateRangeCalendarPopup.ClearSelection | build/lib/pyqt_widgets/forms/date_range_picker.py:303-307 | nothing is picked and range_selected carries two missing dates |
| DateRangePicker.DateRangeCalendarPopup.Apply | build/lib/pyqt_widgets/forms/date_range_picker.py:309-316 | a complete pick emits the ordered range, a lone start emits that date, nothing emits nothing; the popup closes |
| DateRangePicker.RangeSignal | build/lib/pyqt_widgets/forms/date_range_picker.py:135-136 | date_range_changed fires exactly when both dates are present, carrying them |
| DateRangePicker.DateRangePickerWidget.constructor | build/lib/pyqt_widgets/forms/date_range_picker.py:23-29 | no dates, picking the start, no popup |
| DateRangePicker.DateRangePickerWidget.SetStartDate | build/lib/pyqt_widgets/forms/date_range_picker.py:128-136 | an equal date is a no-op; a new one fires start_date_changed, then date_range_changed when both are set |
| DateRangePicker.DateRangePickerWidget.SetEndDate | build/lib/pyqt_widgets/forms/date_range_picker.py:138-146 | the same for the end date |
| DateRangePicker.DateRangePickerWidget.SetDateRange | build/lib/pyqt_widgets/forms/date_range_picker.py:148-162 | both dates are taken unordered; each present one fires its signal, both fire date_range_changed |
| DateRangePicker.DateRangePickerWidget.GetDateRange | build/lib/pyqt_widgets/forms/date_range_picker.py:172-174 | the two dates |
| DateRangePicker.DateRangePickerWidget.Clear | build/lib/pyqt_widgets/forms/date_range_picker.py:176-181 | both dates become none, with no signal |
| DateRangePicker.DateRangePickerWidget.ShowCalendar | build/lib/pyqt_widgets/forms/date_range_picker.py:99-106 | as written: the end to pick is remembered and an open popup closes, then making the popup raises AttributeError, so the picker keeps its old popup and nothing opens |
| DateRangePicker.DateRangePickerWidget.ShowCalendarIntended | build/lib/pyqt_widgets/forms/date_range_picker.py:99-113 | with the intended popup: the end to pick is remembered, an open popup closes, and a new one opens on the current dates |
| DateRangePicker.DateRangePickerWidget.OnDateSelected | build/lib/pyqt_widgets/forms/date_range_picker.py:115-120 | a picked day sets the start or the end, whichever the popup was opened for |
| DateRangePicker.DateRangePickerWidget.OnRangeSelected | build/lib/pyqt_widgets/forms/date_range_picker.py:122-126 | both dates are taken and the popup closes |
| DateRangePicker.DateRangePickerWidget.ClickDay | build/lib/pyqt_widgets/forms/date_range_picker.py:287-301 | with the intended popup open, a day clicked in its calendar (connected at line 238) updates the pick as `_on_calendar_clicked` does, and the emitted date_selected at once sets the picker's start or end as `_on_date_selected` does (lines 115-120) |
| DateRangePicker.DateRangePickerWidget.ChoosePreset | build/lib/pyqt_widgets/forms/date_range_picker.py:216-217 | with the intended popup open, a preset sets both dates to its ordered range, firing all three signals, and closes the popup |
| DateRangePicker.DateRangePickerWidget.ClearPopup | build/lib/pyqt_widgets/forms/date_range_picker.py:256-257 | with the intended popup open, Clear removes both dates silently and closes the popup |
| DateRangePicker.DateRangePickerWidget.ApplyPopup | build/lib/pyqt_widgets/forms/date_range_picker.py:259-260 | with the intended popup open, Apply sets the ordered picked range, or a lone start as the end being picked, and closes the popup |
| DateRangePicker.NoCalendarAfterShow | build/lib/pyqt_widgets/forms/date_range_picker.py:99-106 | as written, a click on the start field leaves the picker with no popup |
| DateRangePicker.CalendarOpensIntended | build/lib/pyqt_widgets/forms/date_range_picker.py:99-113 | as intended, a click on the start field opens a calendar with nothing picked |
| DateRangePicker.SimpleDateRangePicker.constructor | build/lib/pyqt_widgets/forms/date_range_picker.py:324-344 | both fields empty |
| DateRangePicker.SimpleDateRangePicker.Validated | build/lib/pyqt_widgets/forms/date_range_picker.py:346-359 | a range is emitted exactly when both fields are filled and both parse, carrying the two dates in any order |
| DateRangePicker.SimpleDateRangePicker.TypeStart | build/lib/pyqt_widgets/forms/date_range_picker.py:333-335 | a changed start text validates and emits when both dates parse |
| DateRangePicker.SimpleDateRangePicker.TypeEnd | build/lib/pyqt_widgets/forms/date_range_picker.py:340-342 | a changed end text validates and emits when both dates parse |
| DateRangePicker.SimpleDateRangePicker.GetDateRange | build/lib/pyqt_widgets/forms/date_range_picker.py:361-371 | both dates when both parse, otherwise two missing dates |
| DataTable.LoadedCells | pyqt_widgets/data/data_table.py:126-154 | a load shows each value that has a column at its position, leaves the checkbox column without items, and keeps an older item under a column a short row has no value for |
| DataTable.FillRow | pyqt_widgets/data/data_table.py:150-154 | one row's items set value by value equal the row filled from the checkbox offset on, values past the last column dropped |
| DataTable.Populate | pyqt_widgets/data/data_table.py:141-154 | every row of the table filled the same way |
| DataTable.FilterRows | pyqt_widgets/data/data_table.py:163-188 | an empty search shows every row; "All Columns" shows a row iff one of its cells contains the lowercased search; a column choice shows a row iff that column's cell (shifted past the checkbox column) contains it; a chosen column no longer among the columns raises |
| DataTable.AnyMatch | pyqt_widgets/data/data_table.py:176-180 | the scan that stops at the first matching cell finds a match iff some cell matches |
| DataTable.VisibleLinesCount | pyqt_widgets/data/data_table.py:216-226 | the export has one line per visible row |
| DataTable.VisibleLinesFrom | pyqt_widgets/data/data_table.py:216-226 | every exported line is the text of a visible row, empty cells as empty fields |
| DataTable.VisibleLinesAll | pyqt_widgets/data/data_table.py:216-226 | with no row hidden, every row is exported in order |
| DataTable.RowTexts | pyqt_widgets/data/data_table.py:219-226 | one row's fields collected cell by cell are its texts |
| DataTable.ExportLines | pyqt_widgets/data/data_table.py:208-226 | the header line followed by the visible rows' lines |
| DataTable.GatherLast | pyqt_widgets/data/data_table.py:240-243 | a later present cell overrides an earlier one under the same column name |
| DataTable.GatherGet | pyqt_widgets/data/data_table.py:240-243 | with distinct column names, each name maps to its own present cell, and other names to nothing |
| DataTable.ZipDictGet | pyqt_widgets/data/data_table.py:281-285 | with distinct columns, zip pairs each column with its value up to the shorter list, and any other name finds nothing |
| DataTable.FloorDiv | pyqt_widgets/data/data_table.py:374 | Python's floor division: the remainder takes the divisor's sign |
| DataTable.TotalPages | pyqt_widgets/data/data_table.py:374-374 | the page count is at least 1; for a positive size it is the least count whose pages hold every row, for a negative size it is 1 |
| DataTable.Clip | pyqt_widgets/data/data_table.py:377-379 | a slice bound in [0, n]: a bound inside is kept, a negative one counts from the end |
| DataTable.NegativePageSize | pyqt_widgets/data/data_table.py:377-379 | with a negative size the first page is every row but the last -size |
| DataTable.PageSizes | pyqt_widgets/data/data_table.py:377-380 | pages before the last are full, the last holds 1 to size rows, and pages past the last are empty |
| DataTable.PagesPrefix | pyqt_widgets/data/data_table.py:377-380 | the first count pages one after another are the rows up to count times the size |
| DataTable.PagesCover | pyqt_widgets/data/data_table.py:374-380 | all pages one after another give back every row in order |
| DataTable.DataTableWidget.constructor | pyqt_widgets/data/data_table.py:21-30 | an empty table is made and loaded when there are columns and rows; the filter box lists "All Columns" and the first columns |
| DataTable.DataTableWidget.Paged | pyqt_widgets/data/data_table.py:350-355 | with the bar made before the first load, the table shows page 1 and the bar the page count |
| DataTable.DataTableWidget.Unwired | pyqt_widgets/data/data_table.py:350-354 | the paginated table before its bar exists |
| DataTable.DataTableWidget.Setup | pyqt_widgets/data/data_table.py:21-48 | an empty table, an empty search, "All Columns", checkboxes off, sorting and filtering on |
| DataTable.DataTableWidget.SetupPagination | pyqt_widgets/data/data_table.py:357-366 | a numeric bar over the current page count and page |
| DataTable.DataTableWidget.LoadData | pyqt_widgets/data/data_table.py:126-392 | nothing without columns or rows; otherwise the table shows the rows (or the current page) under the column headers, with the checkbox column when checkable; the paginated table first passes the page count to its bar, and fails on a zero page size or while the bar does not exist |
| DataTable.DataTableWidget.LoadTable | pyqt_widgets/data/data_table.py:131-154 | the resized, relabelled and refilled table; hidden rows and checkboxes of surviving rows are kept |
| DataTable.DataTableWidget.ApplyFilter | pyqt_widgets/data/data_table.py:163-188 | every row's hidden flag is the filter's outcome, or nothing changes when the chosen column is missing |
| DataTable.DataTableWidget.SetSearch | pyqt_widgets/data/data_table.py:94-94 | a changed search text filters again; an empty search leaves every row shown |
| DataTable.DataTableWidget.ChooseFilter | pyqt_widgets/data/data_table.py:109-109 | a changed filter text filters again |
| DataTable.DataTableWidget.ClearFilters | pyqt_widgets/data/data_table.py:190-193 | an empty search, "All Columns", and every row shown |
| DataTable.DataTableWidget.ExportData | pyqt_widgets/data/data_table.py:195-226 | no file name writes nothing; otherwise the headers and the visible rows |
| DataTable.DataTableWidget.SelectRow | pyqt_widgets/data/data_table.py:228-232 | the clicked row becomes current and is emitted |
| DataTable.DataTableWidget.CheckRow | pyqt_widgets/data/data_table.py:147-148 | ticking a row's checkbox changes only that checkbox |
| DataTable.DataTableWidget.OnDoubleClick | pyqt_widgets/data/data_table.py:234-245 | the row and a dictionary from each column name to its cell's text, for cells that have items |
| DataTable.DataTableWidget.SetData | pyqt_widgets/data/data_table.py:247-251 | new columns and rows, then a load; a load that raises leaves the table |
| DataTable.DataTableWidget.AddRow | pyqt_widgets/data/data_table.py:253-257 | the row is appended and the table reloaded; data_changed is emitted iff the load does not raise |
| DataTable.DataTableWidget.RemoveRow | pyqt_widgets/data/data_table.py:259-264 | an index inside the rows removes exactly that row and reloads, emitting unless the load raises; any other index changes nothing |
| DataTable.DataTableWidget.GetSelectedRows | pyqt_widgets/data/data_table.py:266-279 | in a checkable table the ticked rows in increasing order, otherwise the current row if there is one |
| DataTable.DataTableWidget.GetRowData | pyqt_widgets/data/data_table.py:281-285 | out of range an empty dictionary; otherwise with distinct columns each column maps to the row's value at its position, or to nothing past the row's end |
| DataTable.DataTableWidget.SetCheckable | pyqt_widgets/data/data_table.py:287-290 | the flag, then a load; a load that raises leaves the table |
| DataTable.DataTableWidget.SetSortable | pyqt_widgets/data/data_table.py:292-295 | the flag is stored |
| DataTable.DataTableWidget.SetFilterable | pyqt_widgets/data/data_table.py:297-300 | the flag is stored and the toolbar stays |
| DataTable.DataTableWidget.OnItemChanged | pyqt_widgets/data/data_table.py:328-342 | the edited text is written to the row only under a data column of an existing row, raising for a row shorter than the columns; otherwise both signals fire |
| DataTable.DataTableWidget.ChangePage | pyqt_widgets/data/data_table.py:397-401 | a page the bar accepts becomes current, is shown and re-emitted, unless a zero page size makes the load raise; any other page leaves everything |
| DataTable.DataTableWidget.SetPageSize | pyqt_widgets/data/data_table.py:403-407 | the size, page 1, and the first page of rows shown; a zero size with rows raises ZeroDivisionError and leaves the table |
| DataTable.NewPaginatedAsWritten | pyqt_widgets/data/data_table.py:350-355 | as written, construction with columns and rows fails because the first load needs the bar that is made after it |
| DataTable.WriteBackIntended | pyqt_widgets/data/data_table.py:328-339 | corrected write-back: the data row the edited table row shows gets the text, every other row is unchanged |
| DataTable.SortedEditWritesOtherRow | pyqt_widgets/data/data_table.py:159-339 | an edit of the top row of a table sorted "b" above "a" lands in the "a" row as written, in the "b" row as intended |
| KanbanBoard.IdOr | build/lib/pyqt_widgets/data/kanban_board.py:21-21 | the id is always truthy, and a truthy given id is kept |
| KanbanBoard.Payload | build/lib/pyqt_widgets/data/kanban_board.py:94-94 | the drag text starts with "kanban_card:" |
| KanbanBoard.PayloadRoundTrip | build/lib/pyqt_widgets/data/kanban_board.py:244-247 | a dropped payload reads back the card id up to its first colon, so the whole id when it has no colon |
| KanbanBoard.KanbanCard.constructor | build/lib/pyqt_widgets/data/kanban_board.py:17-23 | the title, the description, the given id or the object identity, no drag start, and labels only for non-empty texts |
| KanbanBoard.KanbanCard.MousePress | build/lib/pyqt_widgets/data/kanban_board.py:69-73 | a left press records the drag start and every press reaches the base card, which toggles selection on a left click |
| KanbanBoard.KanbanCard.MouseMove | build/lib/pyqt_widgets/data/kanban_board.py:75-86 | a drag starts exactly when only the left button is held after a press and the Manhattan distance is at least 10; it carries the card's payload |
| KanbanBoard.KanbanCard.SetTitle | build/lib/pyqt_widgets/data/kanban_board.py:109-113 | the title, and the label when it exists |
| KanbanBoard.KanbanCard.SetDescription | build/lib/pyqt_widgets/data/kanban_board.py:115-119 | the description, and the label when it exists |
| KanbanBoard.KanbanCard.GetData | build/lib/pyqt_widgets/data/kanban_board.py:121-127 | the card's id, title and description |
| KanbanBoard.FindId | build/lib/pyqt_widgets/data/kanban_board.py:268-273 | the position of the first card with the id, no earlier card having it, or the length when none has it |
| KanbanBoard.RemoveWithSpec | build/lib/pyqt_widgets/data/kanban_board.py:259-266 | removal takes out exactly the first card with the id when there is one and leaves the cards alone otherwise |
| KanbanBoard.KanbanColumn.constructor | build/lib/pyqt_widgets/data/kanban_board.py:136-141 | the title, the given id or the object identity, and no cards |
| KanbanBoard.KanbanColumn.DropEvent | build/lib/pyqt_widgets/data/kanban_board.py:244-251 | a drop is reported exactly for card payloads, with the card id and the column's id text |
| KanbanBoard.KanbanColumn.AddCard | build/lib/pyqt_widgets/data/kanban_board.py:253-257 | the card joins the end |
| KanbanBoard.KanbanColumn.RemoveCard | build/lib/pyqt_widgets/data/kanban_board.py:259-266 | the first card with the id leaves, nothing else changes |
| KanbanBoard.KanbanColumn.GetCard | build/lib/pyqt_widgets/data/kanban_board.py:268-273 | the first card with the id, or none |
| KanbanBoard.KanbanColumn.AddNewCard | build/lib/pyqt_widgets/data/kanban_board.py:275-281 | the "+" button asks for a "New Card" described "Click to edit..." |
| KanbanBoard.KanbanColumn.GetCards | build/lib/pyqt_widgets/data/kanban_board.py:291-293 | the cards in order |
| KanbanBoard.KanbanColumn.SetTitle | build/lib/pyqt_widgets/data/kanban_board.py:295-298 | the new title |
| KanbanBoard.ColumnIndex | build/lib/pyqt_widgets/data/kanban_board.py:442-447 | the position of the first column whose id text matches, no earlier one matching, or the length |
| KanbanBoard.HolderIndex | build/lib/pyqt_widgets/data/kanban_board.py:412-416 | the position of the first column holding a card with the id, or the length |
| KanbanBoard.HeldInHolder | build/lib/pyqt_widgets/data/kanban_board.py:412-419 | an id is held by some column exactly when the search for its holder stops inside the board |
| KanbanBoard.TotalUpdate | build/lib/pyqt_widgets/data/kanban_board.py:425-426 | replacing one column's cards changes the card count by the difference in length |
| KanbanBoard.FiledAddColumn | build/lib/pyqt_widgets/data/kanban_board.py:378-387 | a new empty column keeps every filed card on the board |
| KanbanBoard.FiledAddCard | build/lib/pyqt_widgets/data/kanban_board.py:397-401 | filing a new card and appending it to a column keeps every filed card on the board |
| KanbanBoard.FiledMove | build/lib/pyqt_widgets/data/kanban_board.py:425-426 | moving a filed card between two different columns keeps every filed card on the board and the number of cards |
| KanbanBoard.FiledRemoveColumn | build/lib/pyqt_widgets/data/kanban_board.py:449-460 | removing a column and unfiling its cards' ids keeps every other filed card on the board |
| KanbanBoard.ColumnTextsDeleteAt | build/lib/pyqt_widgets/data/kanban_board.py:460-460 | removing a column removes its id text at the same place |
| KanbanBoard.ColumnIndexLast | build/lib/pyqt_widgets/data/kanban_board.py:380-384 | a column appended with an id text no earlier column has is the one that text finds |
| KanbanBoard.SaveRestore | build/lib/pyqt_widgets/data/kanban_board.py:462-498 | saved board data with truthy ids and distinct column id texts loads back as itself |
| KanbanBoard.ShowsData | build/lib/pyqt_widgets/data/kanban_board.py:462-480 | a column whose id, title and cards carry a saved column's data reads back as that column |
| KanbanBoard.KanbanBoardWidget.constructor | build/lib/pyqt_widgets/data/kanban_board.py:308-312 | no columns and no cards |
| KanbanBoard.KanbanBoardWidget.FindColumn | build/lib/pyqt_widgets/data/kanban_board.py:442-447 | the first column whose id text matches, or none |
| KanbanBoard.KanbanBoardWidget.AddColumn | build/lib/pyqt_widgets/data/kanban_board.py:378-387 | a new empty column at the end with the title and the given id or its identity; the board's data gains it |
| KanbanBoard.KanbanBoardWidget.AddCard | build/lib/pyqt_widgets/data/kanban_board.py:389-403 | no card exactly when no column matches; otherwise a new card with the data ends the first matching column and is filed under its id |
| KanbanBoard.KanbanBoardWidget.FindHolder | build/lib/pyqt_widgets/data/kanban_board.py:411-416 | the first column holding a card with the id, or the length |
| KanbanBoard.KanbanBoardWidget.HandleCardDrop | build/lib/pyqt_widgets/data/kanban_board.py:405-430 | the card filed under the id moves from the first column holding the id to the end of another existing column, with card_moved, exactly when all of those exist and differ; otherwise nothing changes; the number of cards is kept |
| KanbanBoard.KanbanBoardWidget.DropRoute | build/lib/pyqt_widgets/data/kanban_board.py:407-423 | the move happens exactly when the id is filed, some column holds it, and the target exists and is another column |
| KanbanBoard.KanbanBoardWidget.HandleCardCreation | build/lib/pyqt_widgets/data/kanban_board.py:382-434 | as written: a column made without an id has the int `id(self)`, and emitting it through `card_created(str, dict)` raises TypeError, so nothing is reported; a given id is passed on with the request |
| KanbanBoard.KanbanBoardWidget.HandleCardCreationIntended | build/lib/pyqt_widgets/data/kanban_board.py:382-434 | as intended, the request is passed on with the column id as text, whatever kind of id the column has |
| KanbanBoard.CardRequestFails | build/lib/pyqt_widgets/data/kanban_board.py:378-434 | as written, the "+" button of a column added without an id raises TypeError instead of reporting the request |
| KanbanBoard.CardRequestIntended | build/lib/pyqt_widgets/data/kanban_board.py:378-434 | as intended, the same request is reported as ("1", the placeholder card) |
| KanbanBoard.KanbanBoardWidget.AddNewColumn | build/lib/pyqt_widgets/data/kanban_board.py:436-440 | a column titled "Column n+1" after n columns, announced by its title |
| KanbanBoard.KanbanBoardWidget.RemoveColumn | build/lib/pyqt_widgets/data/kanban_board.py:449-460 | the first matching column leaves and its cards' ids are unfiled; an unknown id changes nothing |
| KanbanBoard.KanbanBoardWidget.UnfileCards | build/lib/pyqt_widgets/data/kanban_board.py:452-455 | the ids of the given cards leave the dictionary |
| KanbanBoard.KanbanBoardWidget.ClearBoard | build/lib/pyqt_widgets/data/kanban_board.py:485-486 | removing every column by its id leaves no column and no card |
| KanbanBoard.KanbanBoardWidget.LoadBoardData | build/lib/pyqt_widgets/data/kanban_board.py:482-498 | the board ends with the input's columns, titles and truthy ids; with truthy ids and distinct column id texts its data is exactly the input's |
| KanbanBoard.KanbanBoardWidget.LoadColumn | build/lib/pyqt_widgets/data/kanban_board.py:489-498 | the new column ends the board; with a fresh id text it holds new cards carrying the input's cards |
| KanbanBoard.KanbanBoardWidget.LoadCards | build/lib/pyqt_widgets/data/kanban_board.py:492-498 | each card goes to the column its id text finds; when that is the last column they join its end in order |
| KanbanBoard.KanbanBoardWidget.LoadCard | build/lib/pyqt_widgets/data/kanban_board.py:493-498 | a card with a truthy id joins the end of the last column when its id text finds it, carrying the title, the description or "" and the id |
| KanbanBoard.KanbanBoardWidget.BoardData | build/lib/pyqt_widgets/data/kanban_board.py:462-480 | one entry per column, in order, with its id, title and cards' data |
| KanbanBoard.KanbanBoardWidget.GetBoardData | build/lib/pyqt_widgets/data/kanban_board.py:462-480 | the board's data |
| TreeView.FilterAll | build/lib/pyqt_widgets/data/tree_view.py:190-193 | filtering the top-level items filters each of them, one result per item |
| TreeView.DescendantMatchesIff | build/lib/pyqt_widgets/data/tree_view.py:175-182 | an item leads to a match exactly when one of its children matches or leads to one |
| TreeView.FilterShows | build/lib/pyqt_widgets/data/tree_view.py:171-188 | after a search an item is shown iff the search is empty, its own lowered text contains it or an item below does; it expands when something below matches a non-empty search, else keeps its flag; text and check state stay |
| TreeView.FilterAt | build/lib/pyqt_widgets/data/tree_view.py:177-182 | filtering reaches every item below: the item at a path afterwards is the filtered item that was there |
| TreeView.FilterTreeSpec | build/lib/pyqt_widgets/data/tree_view.py:167-196 | the whole search on the lowered text: items keep their places, texts and check states, and each is shown or expanded exactly as the search rule says |
| TreeView.AtAppend | build/lib/pyqt_widgets/data/tree_view.py:177-180 | walking a path in two parts reaches the same item as walking it at once |
| TreeView.GetPrefix | build/lib/pyqt_widgets/data/tree_view.py:409-413 | every ancestor of an item is an item |
| TreeView.ReplaceHere | build/lib/pyqt_widgets/data/tree_view.py:195-196 | after replacing the item at a path, that path holds the new item |
| TreeView.ReplaceBelow | build/lib/pyqt_widgets/data/tree_view.py:401-407 | replacing an item by one with the same children leaves every item below it unchanged |
| TreeView.ReplaceLabel | build/lib/pyqt_widgets/data/tree_view.py:409-432 | replacing an item changes no item that is not at or below it, and moves none |
| TreeView.PushAll | build/lib/pyqt_widgets/data/tree_view.py:401-407 | each child takes the state and passes it on to its own children |
| TreeView.PushCheckAt | build/lib/pyqt_widgets/data/tree_view.py:401-407 | after pushing a state down, every item below carries it and keeps its text, while the item keeps its own state |
| TreeView.CheckedCount | build/lib/pyqt_widgets/data/tree_view.py:418-424 | the number of checked children is at most the number of children |
| TreeView.CheckedCountSpec | build/lib/pyqt_widgets/data/tree_view.py:418-424 | the count is zero iff no child is checked, and the full count iff every child is checked |
| TreeView.ParentStateSpec | build/lib/pyqt_widgets/data/tree_view.py:426-432 | a parent is unchecked iff no child is Checked, checked iff it has children and all are Checked, partially checked iff some are and some are not |
| TreeView.UpdateKeepsBelow | build/lib/pyqt_widgets/data/tree_view.py:409-432 | recomputing the ancestors leaves the changed item and its subtree untouched |
| TreeView.UpdateConsistent | build/lib/pyqt_widgets/data/tree_view.py:409-432 | after the recomputation every ancestor's state is the one its children give it |
| TreeView.UpdateOthers | build/lib/pyqt_widgets/data/tree_view.py:409-432 | the recomputation touches only ancestors' states and moves no item |
| TreeView.ApplyCheckBelow | build/lib/pyqt_widgets/data/tree_view.py:393-407 | after a check change the item and every item below it carry the new state and keep their texts |
| TreeView.ApplyCheckAncestors | build/lib/pyqt_widgets/data/tree_view.py:393-432 | after a check change every ancestor agrees with its children |
| TreeView.ApplyCheckOthers | build/lib/pyqt_widgets/data/tree_view.py:393-432 | after a check change every item that is not the changed one, below it or above it keeps its label |
| TreeView.CheckedInSpec | build/lib/pyqt_widgets/data/tree_view.py:293-298 | the collection from an item holds exactly the paths of the checked items of its subtree |
| TreeView.CheckedInAllSpec | build/lib/pyqt_widgets/data/tree_view.py:296-297 | the collection over siblings holds exactly the paths of the checked items below them |
| TreeView.CheckedItemsSpec | build/lib/pyqt_widgets/data/tree_view.py:289-302 | get_checked_items returns exactly the checked items of the whole tree |
| TreeView.AddChildSpec | build/lib/pyqt_widgets/data/tree_view.py:126-146 | the new item is found at the end of its parent's children or of the top level, and every existing item keeps its place and label |
| TreeView.RemoveAtSpec | build/lib/pyqt_widgets/data/tree_view.py:276-283 | deleting removes exactly that entry from the top level or from its parent's children, the parent keeping its label |
| TreeView.ExpandAllOf | build/lib/pyqt_widgets/data/tree_view.py:247-257 | expanding or collapsing the children treats each child and its subtree |
| TreeView.ExpandAllAt | build/lib/pyqt_widgets/data/tree_view.py:247-257 | after expanding or collapsing from an item, every item of its subtree carries the flag and keeps its text, hidden flag and check state |
| TreeView.ContextMenu | build/lib/pyqt_widgets/data/tree_view.py:202-243 | the menu starts with Expand All and Collapse All and ends with Delete; it offers Add Folder exactly for items with children and Rename exactly for items without |
| TreeView.FileType | build/lib/pyqt_widgets/data/tree_view.py:362-381 | a known extension gives its file type; "default" is returned exactly for unknown extensions |
| TreeView.TreeViewWidget.constructor | build/lib/pyqt_widgets/data/tree_view.py:21-25 | an empty tree, empty search, check boxes on exactly for the checkable view |
| TreeView.TreeViewWidget.AddItem | build/lib/pyqt_widgets/data/tree_view.py:126-145 | the new unchecked item joins the end of its parent's children or of the top level, with a check box when the view is checkable, and its path is returned |
| TreeView.TreeViewWidget.AddNew | build/lib/pyqt_widgets/data/tree_view.py:259-269 | the new child is named "New Folder k" or "New File k.txt" for k one past the child count, and the parent then expands |
| TreeView.TreeViewWidget.SetSearch | build/lib/pyqt_widgets/data/tree_view.py:97-97 | a changed search text filters the tree with its lowered form; an unchanged one does nothing |
| TreeView.TreeViewWidget.FilterItems | build/lib/pyqt_widgets/data/tree_view.py:190-193 | the loop filters the top-level items in order, giving the same items as the filter of the whole forest |
| TreeView.TreeViewWidget.ClearSearch | build/lib/pyqt_widgets/data/tree_view.py:198-200 | the search becomes empty, which shows all items when it was not empty |
| TreeView.TreeViewWidget.ContextMenuAt | build/lib/pyqt_widgets/data/tree_view.py:202-206 | no menu where there is no item, otherwise the item's menu |
| TreeView.TreeViewWidget.ExpandFrom | build/lib/pyqt_widgets/data/tree_view.py:247-257 | the item and its subtree take the flag |
| TreeView.TreeViewWidget.ExpandEverything | build/lib/pyqt_widgets/data/tree_view.py:308-314 | every item takes the flag |
| TreeView.TreeViewWidget.DeleteItem | build/lib/pyqt_widgets/data/tree_view.py:276-283 | the item leaves its parent or the top level |
| TreeView.TreeViewWidget.SetCheckable | build/lib/pyqt_widgets/data/tree_view.py:285-287 | later items get check boxes exactly when the flag is set |
| TreeView.TreeViewWidget.GetCheckedItems | build/lib/pyqt_widgets/data/tree_view.py:289-302 | the loop over the top-level items returns the pre-order collection of checked items |
| TreeView.TreeViewWidget.ClearTree | build/lib/pyqt_widgets/data/tree_view.py:304-306 | the tree becomes empty |
| TreeView.TreeViewWidget.ChangeCheck | build/lib/pyqt_widgets/data/tree_view.py:394-432 | an unchanged state does nothing; in the checkable view a new state is pushed down, the ancestors recomputed and the checked items emitted; in the plain view only the item changes; this is the intended propagation, which the re-entrant handler in the source does not reach (see Findings) |
| TreeView.SameState | build/lib/pyqt_widgets/data/tree_view.py:401-407 | setCheckState to the state an item already has fires nothing and changes nothing |
| TreeView.LeafPush | build/lib/pyqt_widgets/data/tree_view.py:401-407 | pushing from a leaf changes nothing, since it has no children |
| TreeView.TopLevelUp | build/lib/pyqt_widgets/data/tree_view.py:409-413 | a top-level item has no parent to recompute |
| TreeView.PushDone | build/lib/pyqt_widgets/data/tree_view.py:401-407 | the children loop ends after the last child |
| TreeView.PushSecondSame | build/lib/pyqt_widgets/data/tree_view.py:401-407 | setting the second child to the state it has changes nothing |
| TreeView.LeafSettles | build/lib/pyqt_widgets/data/tree_view.py:394-432 | when the parent already agrees with its leaves, the re-entered handler for a leaf changes nothing |
| TreeView.ParentPushesUnchecked | build/lib/pyqt_widgets/data/tree_view.py:394-432 | the re-entered handler for an unchecked parent over a partially checked and an unchecked leaf unchecks both |
| TreeView.FirstLeafPartial | build/lib/pyqt_widgets/data/tree_view.py:394-432 | a leaf made partially checked by its parent's push turns the parent unchecked, and that push unchecks every leaf |
| TreeView.SecondLeafPartial | build/lib/pyqt_widgets/data/tree_view.py:401-407 | the parent's loop, still holding the partially checked state it read at the start, then makes the second leaf partially checked |
| TreeView.ParentPushesPartial | build/lib/pyqt_widgets/data/tree_view.py:394-432 | a parent turned partially checked over a checked and an unchecked leaf ends unchecked, with its leaves unchecked and partially checked |
| TreeView.CheckingLeafUnchecksIt | build/lib/pyqt_widgets/data/tree_view.py:392-432 | checking the first of two unchecked leaves ends, with any fuel of 20 or more, with that leaf unchecked, its sibling partially checked and the parent unchecked |
| TreeView.CheckingLeafIntended | build/lib/pyqt_widgets/data/tree_view.py:394-432 | the intended propagation of the same change checks the leaf, leaves its sibling unchecked and makes the parent partially checked |
| Timeline.NewEvent | build/lib/pyqt_widgets/data/timeline.py:56-69 | the event has the given texts and type, the current time when no timestamp is given, and empty data when none is given |
| Timeline.PlaceSpec | build/lib/pyqt_widgets/data/timeline.py:71-77 | after an event is added the list is sorted by timestamp, holds exactly the old events and the new one, and for each timestamp keeps its events in the order they were added (a stable sort) |
| Timeline.PlaceSorted | build/lib/pyqt_widgets/data/timeline.py:75-77 | adding an event to a sorted list leaves it sorted by timestamp |
| Timeline.PlaceMultiset | build/lib/pyqt_widgets/data/timeline.py:71-77 | the sorted list holds exactly the old events and the new one |
| Timeline.PlaceStable | build/lib/pyqt_widgets/data/timeline.py:75-77 | events with the same timestamp stay in the order they were added, the new one last |
| Timeline.PlaceSplit | build/lib/pyqt_widgets/data/timeline.py:75-77 | the new event goes right after the events not later than it |
| Timeline.DeleteSorted | build/lib/pyqt_widgets/data/timeline.py:262-266 | removing an event keeps the list sorted |
| Timeline.EventColorRole | build/lib/pyqt_widgets/data/timeline.py:189-198 | success, warning and info keep their colour, error is drawn in danger, every other type in the primary colour |
| Timeline.ConnectorsMeet | build/lib/pyqt_widgets/data/timeline.py:152-160 | the first dot has no connector above, the last none below, and every gap between neighbours is drawn from both sides |
| Timeline.Cards | build/lib/pyqt_widgets/data/timeline.py:79-90 | one card per event, in list order, carrying its position |
| Timeline.CardTexts | build/lib/pyqt_widgets/data/timeline.py:200-255 | a card shows the title, the description when not empty (not on compact cards) and the icon when set and not empty |
| Timeline.Indicator | build/lib/pyqt_widgets/data/timeline.py:292-307 | a compact card without an icon shows a strip in the event type's colour; every other card shows none |
| Timeline.StaleAfterOrientation | build/lib/pyqt_widgets/data/timeline.py:272-275 | cards laid out in one orientation differ from the cards for the other |
| Timeline.TimelineWidget.constructor | build/lib/pyqt_widgets/data/timeline.py:18-22 | an empty timeline; compact and interactive timelines are vertical |
| Timeline.TimelineWidget.Rebuild | build/lib/pyqt_widgets/data/timeline.py:79-90 | the layout on screen gets one card per event, in order |
| Timeline.TimelineWidget.Insert | build/lib/pyqt_widgets/data/timeline.py:71-77 | the list becomes the old list with the event placed by timestamp after its equals |
| Timeline.TimelineWidget.AddEvent | build/lib/pyqt_widgets/data/timeline.py:56-73 | the new event joins the sorted list after the events with the same timestamp, and the cards are rebuilt |
| Timeline.TimelineWidget.ClearEvents | build/lib/pyqt_widgets/data/timeline.py:257-260 | no events and no cards remain |
| Timeline.TimelineWidget.RemoveEvent | build/lib/pyqt_widgets/data/timeline.py:262-266 | an index inside the list removes that event and rebuilds; any other index changes nothing |
| Timeline.TimelineWidget.GetEvents | build/lib/pyqt_widgets/data/timeline.py:268-270 | the events in order |
| Timeline.TimelineWidget.SetOrientation | build/lib/pyqt_widgets/data/timeline.py:272-275 | the orientation changes but the layout on screen is no longer the one rebuilt, so the cards shown stay as they were |
| Timeline.TimelineWidget.SetOrientationIntended | build/lib/pyqt_widgets/data/timeline.py:272-275 | the orientation changes and the cards on screen are laid out again in it |
| Timeline.TimelineWidget.Paint | build/lib/pyqt_widgets/data/timeline.py:137-187 | a card's dot takes its event type's colour and draws the connectors for its position in the current list; a position past the list's end raises |
| Timeline.TimelineWidget.ClickCard | build/lib/pyqt_widgets/data/timeline.py:252-253 | a click emits the card's event; on a compact card it raises TypeError instead |
| Timeline.TimelineWidget.ClickCardIntended | build/lib/pyqt_widgets/data/timeline.py:336-336 | every card's click emits the card's event |
| Timeline.TimelineWidget.EditCard | build/lib/pyqt_widgets/data/timeline.py:367-370 | event_edited carries the position of the first event equal to the card's, and the event; none when no event equals it |
| Timeline.TimelineWidget.DeleteCard | build/lib/pyqt_widgets/data/timeline.py:372-376 | the first event equal to the card's is removed and its position emitted; nothing changes when no event equals it |
| PropertyGrid.DetectType | build/lib/pyqt_widgets/data/property_grid.py:104-117 | a bool is detected as bool (before int), an int as int, a float as float, a colour as color, and strings and anything unrecognised as string |
| PropertyGrid.DetectedAccepts | build/lib/pyqt_widgets/data/property_grid.py:86-87 | the editor chosen for a detected type accepts the value it was detected from |
| PropertyGrid.MakeEditorSpec | build/lib/pyqt_widgets/data/property_grid.py:119-143 | a read-only property gets a label and only it does; a choice gets a combo box exactly when it has options and a line edit showing the value otherwise; a combo box starts on the option equal to the value; an int editor starts at the value clamped to ±999999 |
| PropertyGrid.UpdateWidgetShows | build/lib/pyqt_widgets/data/property_grid.py:278-287 | updating an editor emits a value exactly when the editor changed (a combo box moving to a duplicate of its current text emits nothing), and the value emitted is what the editor then shows |
| PropertyGrid.UpdateWidgetTwice | build/lib/pyqt_widgets/data/property_grid.py:278-287 | showing the same value again leaves the editor as it is and emits nothing |
| PropertyGrid.Showing | build/lib/pyqt_widgets/data/property_grid.py:145-188 | after the user puts a value into a check box, spin box, line edit or combo box, the editor shows that value |
| PropertyGrid.RowIndex | build/lib/pyqt_widgets/data/property_grid.py:270-276 | the loop finds the first top-level row whose text is the name, or none when no row has it |
| PropertyGrid.GroupIndex | build/lib/pyqt_widgets/data/property_grid.py:360-363 | the group item of an id is found among the top-level rows, or is not in the tree |
| PropertyGrid.GroupIdsSpec | build/lib/pyqt_widgets/data/property_grid.py:302-306 | the group items clearing the tree deletes are exactly those found among its top-level rows |
| PropertyGrid.JoinedSpec | build/lib/pyqt_widgets/data/property_grid.py:360-369 | joining a group adds the row last among the group's children and expands it, and changes no other row; a group item not in the tree leaves the rows as they are |
| PropertyGrid.ReflectedPropsSpec | build/lib/pyqt_widgets/data/property_grid.py:389-401 | a name and value are reflected exactly when some attribute listed by dir() has them and is public, readable and not callable |
| PropertyGrid.ReflectedDistinct | build/lib/pyqt_widgets/data/property_grid.py:389-401 | distinct attribute names make the reflected properties a dictionary whose keys are attribute names |
| PropertyGrid.SetAttr | build/lib/pyqt_widgets/data/property_grid.py:403-412 | only the first attribute of that name takes the value, and only when it is readable and writable; every other attribute is unchanged |
| PropertyGrid.PropertyGridWidget.constructor | build/lib/pyqt_widgets/data/property_grid.py:20-31 | a new grid has no properties, types, rows or groups |
| PropertyGrid.PropertyGridWidget.AddProperty | build/lib/pyqt_widgets/data/property_grid.py:82-102 | the value and the resolved type (the detected one for auto) are assigned under the name in both dictionaries, and a row with the type's editor is appended to the tree |
| PropertyGrid.PropertyGridWidget.UpdateProperty | build/lib/pyqt_widgets/data/property_grid.py:257-260 | the value is assigned under the name and emitted with it; the object grid also sets the target's attribute |
| PropertyGrid.PropertyGridWidget.GetProperty | build/lib/pyqt_widgets/data/property_grid.py:262-264 | the value under the name, or none exactly when the name is absent |
| PropertyGrid.PropertyGridWidget.FindRow | build/lib/pyqt_widgets/data/property_grid.py:270-276 | the loop returns the first top-level row with the name's text, or -1 |
| PropertyGrid.PropertyGridWidget.SetProperty | build/lib/pyqt_widgets/data/property_grid.py:266-287 | an absent name changes nothing; a present one is assigned, the first top-level row with its text updates its editor, and when the editor changed the value it shows is stored, emitted and set on the target |
| PropertyGrid.PropertyGridWidget.RemoveProperty | build/lib/pyqt_widgets/data/property_grid.py:289-300 | an absent name changes nothing; a present one leaves both dictionaries and the first top-level row with its text leaves the tree; a name without a recorded type raises after leaving the values |
| PropertyGrid.PropertyGridWidget.ClearProperties | build/lib/pyqt_widgets/data/property_grid.py:302-306 | both dictionaries and the tree are empty, and the group items that were in the tree are deleted |
| PropertyGrid.PropertyGridWidget.GetAllProperties | build/lib/pyqt_widgets/data/property_grid.py:313-315 | the copy has exactly the grid's names, each with its value |
| PropertyGrid.PropertyGridWidget.SetProperties | build/lib/pyqt_widgets/data/property_grid.py:317-321 | afterwards the values are exactly the given dictionary, each with its detected type and one row per entry in order |
| PropertyGrid.PropertyGridWidget.AddGroup | build/lib/pyqt_widgets/data/property_grid.py:331-339 | a new group item is appended to the tree and recorded under its name, replacing an earlier item of that name |
| PropertyGrid.PropertyGridWidget.AddPropertyToGroup | build/lib/pyqt_widgets/data/property_grid.py:341-369 | an unknown group is added first; both dictionaries take the property; the row joins the group item and expands it, unless the tree deleted the item, which raises |
| PropertyGrid.PropertyGridWidget.EditRow | build/lib/pyqt_widgets/data/property_grid.py:145-187 | a user edit that changes what the editor shows stores and emits the new value (and sets it on the target); one that does not changes nothing |
| PropertyGrid.PropertyGridWidget.ChooseColor | build/lib/pyqt_widgets/data/property_grid.py:234-248 | a valid colour is stored, emitted and shown in the preview; a cancelled dialog changes nothing |
| PropertyGrid.PropertyGridWidget.BrowseFile | build/lib/pyqt_widgets/data/property_grid.py:250-255 | a chosen file name is stored, emitted and shown; an empty one changes nothing |
| PropertyGrid.PropertyGridWidget.SetTargetObject | build/lib/pyqt_widgets/data/property_grid.py:375-401 | the target is recorded; with one, the grid is refilled with exactly its public, readable, non-callable attributes in dir() order; without one nothing else changes |
| CommentTree.ParentKey | pyqt_widgets/user/comment_thread.py:554 | a missing or empty parent id files the comment under "root"; any other id is its own key |
| CommentTree.AsWrittenIdCollides | pyqt_widgets/user/comment_thread.py:539 | after two comments and the deletion of "0", `str(len(comments))` is "1" again, so the third comment overwrites the second |
| CommentTree.CountTextSpec | pyqt_widgets/user/comment_thread.py:532-535 | "1 comment" for one, "{n} comments" otherwise |
| CommentTree.LayoutListShows | pyqt_widgets/user/comment_thread.py:510-530 | every comment listed under an owner is laid out at that owner's depth |
| CommentTree.ShownTopLevel | pyqt_widgets/user/comment_thread.py:499-508 | every top-level comment is shown, unindented |
| CommentTree.LayoutIndented | pyqt_widgets/user/comment_thread.py:510-530 | the layout below an owner holds comments only, none shallower than its starting depth |
| CommentTree.ShownIndented | pyqt_widgets/user/comment_thread.py:499-508 | the rebuilt layout shows comments only |
| CommentTree.AddKeeps | pyqt_widgets/user/comment_thread.py:546-556 | storing a comment under the next free id and appending it to its owner's list keeps the thread's invariant |
| CommentTree.EditKeeps | pyqt_widgets/user/comment_thread.py:267-273 | changing a comment's content keeps the invariant |
| CommentTree.DetachKeeps | pyqt_widgets/user/comment_thread.py:466-472 | removing the comment from `_comments` leaves it listed once, under its parent |
| CommentTree.UnlistKeeps | pyqt_widgets/user/comment_thread.py:487-491 | taking the id out of the first list holding it restores the invariant |
| CommentTree.UnkeyKeeps | pyqt_widgets/user/comment_thread.py:494-497 | dropping the list of a deleted id whose replies are gone keeps the invariant |
| CommentTree.ReplyList | pyqt_widgets/user/comment_thread.py:494-496 | the list under an id holds exactly the comments recorded as its replies |
| CommentTree.OrderPut | pyqt_widgets/user/comment_thread.py:553-556 | assigning to a key of the insertion-ordered tree keeps the key order, a new key going last |
| CommentTree.OrderDel | pyqt_widgets/user/comment_thread.py:497 | deleting a key keeps the order of the others |
| CommentTree.EmptyIntact | pyqt_widgets/user/comment_thread.py:567-572 | a cleared thread satisfies the invariant |
| CommentTree.DeletedGone | pyqt_widgets/user/comment_thread.py:464-497 | after a deletion no deleted id is a comment or owns a list, no list holds one, and no comment left is a reply to one |
| CommentThread.Elapsed | pyqt_widgets/user/comment_thread.py:200-215 | "just now" under a minute, else the largest of minutes, hours, days that fits, with the whole number of units elapsed |
| CommentThread.Ago | pyqt_widgets/user/comment_thread.py:200-215 | the label is "just now" exactly when less than a minute has passed |
| CommentThread.LikeTwice | pyqt_widgets/user/comment_thread.py:217-251 | the first click likes and adds one, the second unlikes and restores the count |
| CommentThread.SavedContentSpec | pyqt_widgets/user/comment_thread.py:267-275 | a blank draft keeps the content; otherwise the content becomes the stripped draft; saving again changes nothing |
| CommentThread.CommentWidget.LikeClicked | pyqt_widgets/user/comment_thread.py:217-251 | the like state flips and the count moves by one in the same direction |
| CommentThread.CommentWidget.ToggleEdit | pyqt_widgets/user/comment_thread.py:252-257 | starts an edit, or cancels the one in progress, resetting the editor |
| CommentThread.CommentWidget.SaveEdit | pyqt_widgets/user/comment_thread.py:267-275 | stores SavedContent, emits exactly when the draft is not blank, and ends editing |
| CommentThread.CommentWidget.CancelEdit | pyqt_widgets/user/comment_thread.py:277-280 | the editor goes back to the content and editing ends |
| CommentThread.Delete | pyqt_widgets/user/comment_thread.py:464-483 | deletes the id and every reply under it, emitting the id last; exactly the deleted ids leave `_comments`, each was the id or a reply to a deleted id, exactly their lists are dropped, and the invariant holds; an unknown id changes nothing |
| CommentThread.RemoveFromTree | pyqt_widgets/user/comment_thread.py:485-497 | the id leaves every list, its own list is dropped, and only replies under it are deleted |
| CommentThread.Unlist | pyqt_widgets/user/comment_thread.py:487-491 | the id is removed from the first list holding it, which is the only one; no list holds it afterwards |
| CommentThread.DropOwner | pyqt_widgets/user/comment_thread.py:494-497 | if the id owns a list, every reply in it is deleted and the list dropped |
| CommentThread.DeleteReplies | pyqt_widgets/user/comment_thread.py:495-496 | each reply in the copied list is deleted in turn; none of them is a comment afterwards |
| CommentThread.CommentThreadWidget.constructor | pyqt_widgets/user/comment_thread.py:314-318 | empty dictionaries, "0 comments", the comment box shown |
| CommentThread.CommentThreadWidget.AddComment | pyqt_widgets/user/comment_thread.py:537-565 | the comment gets a fresh id, appended to its parent's list; layout and count are refreshed; with no deletion so far the id is `str(len(comments))` |
| CommentThread.CommentThreadWidget.AddCommentAsWritten | pyqt_widgets/user/comment_thread.py:537-565 | the source's numbering: the id is `str(len(comments))`, whatever it overwrites |
| CommentThread.CommentThreadWidget.PostComment | pyqt_widgets/user/comment_thread.py:411-453 | as written: a blank box does nothing; otherwise a top-level comment by "Current User" with the stripped text, numbered `str(len(comments))` and overwriting any comment with that id, the box cleared, `comment_added("root", text)` emitted |
| CommentThread.CommentThreadWidget.PostCommentIntended | pyqt_widgets/user/comment_thread.py:411-453 | with the counter's numbering: a blank box does nothing; otherwise the new top-level comment takes an id not in use, the box is cleared, `comment_added("root", text)` emitted, and the thread invariant holds |
| CommentThread.CommentThreadWidget.CancelComment | pyqt_widgets/user/comment_thread.py:455-457 | hides the comment box |
| CommentThread.CommentThreadWidget.EditComment | pyqt_widgets/user/comment_thread.py:426 | a saved edit changes that comment's content only and emits `comment_edited(id, content)` when the draft is not blank |
| CommentThread.CommentThreadWidget.DeleteComment | pyqt_widgets/user/comment_thread.py:464-483 | the comment and its replies go (exactly the deleted ids, each once), the id is emitted last, the lists of deleted ids are dropped, layout and count refreshed; an unknown id changes nothing |
| CommentThread.CommentThreadWidget.ClearComments | pyqt_widgets/user/comment_thread.py:567-572 | both dictionaries emptied, an empty layout and "0 comments" |
| CommentThread.CommentThreadWidget.GetCommentsCount | pyqt_widgets/user/comment_thread.py:574-576 | the number of comments |
| RatingStar.StarSize | pyqt_widgets/user/rating_star.py:53-60 | small 16, large 24, medium and any unknown size 20 |
| RatingStar.Glyph | pyqt_widgets/user/rating_star.py:184-197 | ★ iff filled; the warning colour iff filled and previewed, primary iff filled only, text_secondary iff empty |
| RatingStar.StarCount | pyqt_widgets/user/rating_star.py:35 | one star per unit of the maximum, none for a negative maximum |
| RatingStar.Clamped | pyqt_widgets/user/rating_star.py:111-114 | the result lies in [0, max]; an in-range rating is kept, a negative one gives 0, one above the maximum gives the maximum |
| RatingStar.ClickedRating | pyqt_widgets/user/rating_star.py:75-79 | clicking the current rating's star gives 0, any other star gives its index |
| RatingStar.RatingShown | pyqt_widgets/user/rating_star.py:87 | the hover rating while previewing a positive hover, the current rating otherwise |
| RatingStar.Paint | pyqt_widgets/user/rating_star.py:89-102 | a star is filled iff its index is at most the shown rating, and tinted only when filled and previewing |
| RatingStar.Display | pyqt_widgets/user/rating_star.py:85-102 | n stars; star i (1-based) is filled iff i ≤ shown and tinted iff also previewing |
| RatingStar.DisplayFilledCount | pyqt_widgets/user/rating_star.py:85-102 | the number of filled stars is the shown rating cut to [0, n] |
| RatingStar.DisplayFilledPrefix | pyqt_widgets/user/rating_star.py:92 | no empty star precedes a filled one |
| RatingStar.RatingText | pyqt_widgets/user/rating_star.py:406-417 | the compact label is "(" + the number + ")" |
| RatingStar.CompactLabelShowsUnclamped | pyqt_widgets/user/rating_star.py:413-417 | set_rating(7) with five stars gives rating 5, but the compact label shows "(7)" |
| RatingStar.RatingStarWidget.constructor | pyqt_widgets/user/rating_star.py:16-47 | the rating is kept unclamped, no hover, stars drawn for the rating |
| RatingStar.RatingStarWidget.Compact | pyqt_widgets/user/rating_star.py:392-411 | five small stars and one "(n)" label |
| RatingStar.RatingStarWidget.Redraw | pyqt_widgets/user/rating_star.py:85-102 | every star repainted for the shown rating, the preview colour only when previewing and not read-only |
| RatingStar.RatingStarWidget.Hover | pyqt_widgets/user/rating_star.py:62-68 | read-only ignores it; otherwise the hover rating is the star and the stars preview it |
| RatingStar.RatingStarWidget.Click | pyqt_widgets/user/rating_star.py:70-83 | read-only ignores it; otherwise the rating toggles between the star and 0, the hover is reset, and rating_changed carries the new rating |
| RatingStar.RatingStarWidget.Leave | pyqt_widgets/user/rating_star.py:104-109 | unless read-only, the hover is 0 and the current rating is drawn |
| RatingStar.RatingStarWidget.SetRating | pyqt_widgets/user/rating_star.py:111-417 | the rating is clamped to [0, max] and drawn; the compact label takes the unclamped value |
| RatingStar.RatingStarWidget.SetReadOnly | pyqt_widgets/user/rating_star.py:120-128 | only the flag changes; the stars are not repainted |
| RatingStar.RatingStarWidget.OnScreen | pyqt_widgets/user/rating_star.py:28-44 | the star labels in the installed layout: the stars while attached, none otherwise |
| RatingStar.RatingStarWidget.SetMaxStars | pyqt_widgets/user/rating_star.py:28-143 | the same maximum changes nothing; another caps the rating and rebuilds the stars for it, but they are detached from the screen; the compact widget gains a label |
| RatingStar.RatingStarWidget.SetMaxStarsIntended | pyqt_widgets/user/rating_star.py:130-143 | corrected: the rebuilt stars replace those on screen and the compact label shows the capped rating |
| RatingStar.StarsHiddenAfterSetMaxStars | pyqt_widgets/user/rating_star.py:28-143 | five stars rated 3 are shown; after set_max_stars(10) none are |
| RatingStar.StarsShownAfterSetMaxStarsIntended | pyqt_widgets/user/rating_star.py:130-143 | corrected: ten stars, the first three filled |
| ReactionBar.Count | build/lib/pyqt_widgets/user/reaction_bar.py:132-137 | the stored count for a key, 0 for a missing key |
| ReactionBar.Without | build/lib/pyqt_widgets/user/reaction_bar.py:173 | exactly the other keys remain; a missing key leaves the order alone |
| ReactionBar.Assign | build/lib/pyqt_widgets/user/reaction_bar.py:132-137 | a present key keeps its place, a new one goes last; the order keeps listing the keys |
| ReactionBar.Unassign | build/lib/pyqt_widgets/user/reaction_bar.py:173-285 | the key leaves order and map, every other count is unchanged |
| ReactionBar.Toggled | build/lib/pyqt_widgets/user/reaction_bar.py:127-142 | a reaction of the user's is withdrawn (count down by one, floored at 0, key kept); otherwise made (count up by one, from 0); other counts unchanged |
| ReactionBar.ToggleTwice | build/lib/pyqt_widgets/user/reaction_bar.py:129-138 | toggling twice from not-reacted restores the state exactly for a keyed, non-negative count; a new emoji stays behind with count 0, last |
| ReactionBar.Picked | build/lib/pyqt_widgets/user/reaction_bar.py:155-161 | an emoji the user already reacted with changes nothing; otherwise it is counted like a toggle |
| ReactionBar.AddedCount | build/lib/pyqt_widgets/user/reaction_bar.py:163-166 | the count rises by n (from 0 for a new emoji); nothing else changes |
| ReactionBar.RemovedCount | build/lib/pyqt_widgets/user/reaction_bar.py:168-174 | an unknown emoji is a no-op; otherwise the count drops by n, floored at 0, and the key goes iff the count reaches 0 |
| ReactionBar.WithUser | build/lib/pyqt_widgets/user/reaction_bar.py:176-182 | the emoji joins or leaves the user's set; counts unchanged |
| ReactionBar.WithCount | build/lib/pyqt_widgets/user/reaction_bar.py:280-306 | a positive count is stored, any other removes the key; the user's mark follows the flag |
| ReactionBar.SimpleStart | build/lib/pyqt_widgets/user/reaction_bar.py:260-274 | only positive like/dislike counts get keys, likes first; the user's set holds the flagged ones |
| ReactionBar.ButtonText | build/lib/pyqt_widgets/user/reaction_bar.py:57-380 | "emoji count", without the space in the compact bar |
| ReactionBar.Button | build/lib/pyqt_widgets/user/reaction_bar.py:55-96 | the button carries the emoji and its text and is highlighted iff the user reacted with it |
| ReactionBar.Slot | build/lib/pyqt_widgets/user/reaction_bar.py:99-101 | the slot before the last two items, or the front when there are fewer |
| ReactionBar.FilledKeepsFixed | build/lib/pyqt_widgets/user/reaction_bar.py:43-53 | a refresh only adds buttons: the add button and stretch stay in order |
| ReactionBar.FilledInOrder | build/lib/pyqt_widgets/user/reaction_bar.py:50-102 | with two fixed items at the end, the buttons stand in key order before them |
| ReactionBar.ButtonsShowPositive | build/lib/pyqt_widgets/user/reaction_bar.py:51-53 | an emoji has a button iff it is a key with a positive count |
| ReactionBar.FirstDisplayReversed | build/lib/pyqt_widgets/user/reaction_bar.py:27-102 | the first display of two positive reactions shows them in reverse order |
| ReactionBar.SimpleBarReversed | build/lib/pyqt_widgets/user/reaction_bar.py:98-278 | the simple bar shows the dislike button before the like button |
| ReactionBar.Fixed | build/lib/pyqt_widgets/user/reaction_bar.py:104-432 | the simple bar keeps only the stretch; the others an add button ("😊+", "+" when compact) then the stretch |
| ReactionBar.ReactionBarWidget.constructor | build/lib/pyqt_widgets/user/reaction_bar.py:18-41 | the first display fills an empty row, then the add button and the stretch follow |
| ReactionBar.ReactionBarWidget.SimpleBar | build/lib/pyqt_widgets/user/reaction_bar.py:260-278 | the simple bar's start state, its first display and the stretch alone |
| ReactionBar.ReactionBarWidget.UpdateDisplay | build/lib/pyqt_widgets/user/reaction_bar.py:43-102 | the buttons leave, then each positive key gets a button inserted at the slot, in key order |
| ReactionBar.ReactionBarWidget.UpdateDisplayIntended | build/lib/pyqt_widgets/user/reaction_bar.py:43-53 | corrected refresh: the buttons in key order before the fixed items, one for each positive key |
| ReactionBar.ReactionBarWidget.Refresh | build/lib/pyqt_widgets/user/reaction_bar.py:43-53 | a built bar (not the simple one) shows the buttons in key order before add button and stretch |
| ReactionBar.ReactionBarWidget.Toggle | build/lib/pyqt_widgets/user/reaction_bar.py:127-342 | the toggled state, reaction_removed or reaction_added then reaction_clicked, and the animated bar animates iff the count changed and the button remains |
| ReactionBar.ReactionBarWidget.Pick | build/lib/pyqt_widgets/user/reaction_bar.py:155-161 | the picked state; reaction_added only when the user had not reacted, otherwise nothing changes |
| ReactionBar.ReactionBarWidget.AddReaction | build/lib/pyqt_widgets/user/reaction_bar.py:163-166 | the counted state and a refreshed row |
| ReactionBar.ReactionBarWidget.RemoveReaction | build/lib/pyqt_widgets/user/reaction_bar.py:168-174 | the reduced state; an unknown emoji does not even refresh |
| ReactionBar.ReactionBarWidget.SetUserReaction | build/lib/pyqt_widgets/user/reaction_bar.py:176-182 | the user's set updated and the row refreshed |
| ReactionBar.ReactionBarWidget.ClearReactions | build/lib/pyqt_widgets/user/reaction_bar.py:192-196 | no counts, no user reactions, only the fixed items |
| ReactionBar.ReactionBarWidget.SetLikes | build/lib/pyqt_widgets/user/reaction_bar.py:280-292 | a positive like count stored, otherwise removed; the like mark set or cleared |
| ReactionBar.ReactionBarWidget.SetDislikes | build/lib/pyqt_widgets/user/reaction_bar.py:294-306 | the same for dislikes |
| BadgeLabel.Floor0 | pyqt_widgets/feedback/badge_label.py:137-140 | counts below zero are stored as 0, others unchanged |
| BadgeLabel.BadgeText | pyqt_widgets/feedback/badge_label.py:60-64 | the text ends in '+' exactly when the count exceeds the maximum; otherwise its digits read back as the count |
| BadgeLabel.BadgeTextDistinguishes | pyqt_widgets/feedback/badge_label.py:60-64 | counts up to the maximum get pairwise different texts, all counts above it the same one, never one of the lower texts |
| BadgeLabel.BadgeWidth | pyqt_widgets/feedback/badge_label.py:68-74 | 18 pixels for one character, 22 for two, at least 8 per character and 22 beyond |
| BadgeLabel.NatToStrLengthMonotone | pyqt_widgets/feedback/badge_label.py:64 | a larger number never prints with fewer digits |
| BadgeLabel.BadgeWidthMonotone | pyqt_widgets/feedback/badge_label.py:60-74 | a larger count never gets a narrower badge |
| BadgeLabel.BadgeBg | pyqt_widgets/feedback/badge_label.py:101-130 | the badge colour names map to their theme tokens (error to danger, secondary to text_secondary), unknown names to primary |
| BadgeLabel.Updated | pyqt_widgets/feedback/badge_label.py:51-99 | the badge is visible exactly when it should show; a hidden badge keeps its last look; a shown one has its text, width, height 18, right edge on the container's and the colour's token on white |
| BadgeLabel.StatusConfig | pyqt_widgets/feedback/badge_label.py:293-302 | each status's colour and glyph; unknown statuses look offline |
| BadgeLabel.BadgePlacements | pyqt_widgets/feedback/badge_label.py:66-79 | "7", "42" and "99+" sit at 6, 2 and 0 in the 24-pixel container |
| BadgeLabel.DotColor | pyqt_widgets/feedback/badge_label.py:222-230 | the dot's colours; "secondary" is not one of them and falls back to primary |
| BadgeLabel.BadgeLabelWidget.constructor | pyqt_widgets/feedback/badge_label.py:14-49 | the fields as given (the count unclamped) and the first badge update in a 24 by 20 container |
| BadgeLabel.BadgeLabelWidget.WithIcon | pyqt_widgets/feedback/badge_label.py:181-200 | no text, zero hidden, maximum 99, the icon glyph in the label |
| BadgeLabel.BadgeLabelWidget.ForMenu | pyqt_widgets/feedback/badge_label.py:258-272 | the badge placed in the 24-pixel container before it shrinks to 20 by 16 |
| BadgeLabel.BadgeLabelWidget.ForStatus | pyqt_widgets/feedback/badge_label.py:286-328 | the status glyph, 12 by 12 at the container's bottom-right, in the status colour on transparent |
| BadgeLabel.BadgeLabelWidget.ForAnimation | pyqt_widgets/feedback/badge_label.py:343-345 | primary, zero hidden, maximum 99 |
| BadgeLabel.BadgeLabelWidget.UpdateBadge | pyqt_widgets/feedback/badge_label.py:274-280 | the badge update, then a menu badge on screen moves to (0, 0) |
| BadgeLabel.BadgeLabelWidget.UpdateStatusBadge | pyqt_widgets/feedback/badge_label.py:291-328 | the badge colour becomes the status's; the badge shows the status glyph at the bottom-right corner |
| BadgeLabel.BadgeLabelWidget.SetText | pyqt_widgets/feedback/badge_label.py:132-135 | the text and the label change |
| BadgeLabel.BadgeLabelWidget.SetCount | pyqt_widgets/feedback/badge_label.py:137-140 | the count floored at 0 and the badge updated; an animated label bounces exactly when the count rose and the badge is on screen |
| BadgeLabel.BadgeLabelWidget.Increment | pyqt_widgets/feedback/badge_label.py:142-144 | a non-negative count goes up by one |
| BadgeLabel.BadgeLabelWidget.Decrement | pyqt_widgets/feedback/badge_label.py:146-148 | the count goes down by one but never below 0, and never bounces |
| BadgeLabel.BadgeLabelWidget.SetBadgeColor | pyqt_widgets/feedback/badge_label.py:150-153 | the colour stored and the badge updated |
| BadgeLabel.BadgeLabelWidget.SetShowZero | pyqt_widgets/feedback/badge_label.py:155-158 | the flag stored and the badge updated |
| BadgeLabel.BadgeLabelWidget.SetMaxCount | pyqt_widgets/feedback/badge_label.py:160-163 | the maximum stored and the badge updated |
| BadgeLabel.BadgeLabelWidget.SetStatus | pyqt_widgets/feedback/badge_label.py:330-333 | the status stored; the badge shows its glyph in its colour |
| BadgeLabel.BadgeLabelWidget.SetIcon | pyqt_widgets/feedback/badge_label.py:202-206 | a non-empty glyph replaces the label's, an empty one leaves it |
| BadgeLabel.NotificationBadge.Radius | pyqt_widgets/feedback/badge_label.py:235 | the corner radius is half the size, rounded down |
| BadgeLabel.NotificationBadge.constructor | pyqt_widgets/feedback/badge_label.py:211-216 | visible, filled with the colour's token |
| BadgeLabel.NotificationBadge.SetVisibleBadge | pyqt_widgets/feedback/badge_label.py:240-243 | the visibility flag |
| BadgeLabel.NotificationBadge.SetColor | pyqt_widgets/feedback/badge_label.py:245-248 | the colour and its fill |
| StatusChip.SizeProperties | build/lib/pyqt_widgets/feedback/status_chip.py:79-111 | the small, medium and large tables; an unknown size gets medium's |
| StatusChip.SizesArePills | build/lib/pyqt_widgets/feedback/status_chip.py:79-111 | every size rounds its corners by half its height and fits its icon inside the padding |
| StatusChip.SizesGrow | build/lib/pyqt_widgets/feedback/status_chip.py:79-111 | height, padding, icon and font grow from small to medium to large |
| StatusChip.StatusColors | build/lib/pyqt_widgets/feedback/status_chip.py:121-176 | each status's colours; every status but default is white text with the border the background; unknown statuses get default's |
| StatusChip.Style | build/lib/pyqt_widgets/feedback/status_chip.py:176-208 | the status colours, the size's radius, and a hover colour exactly for clickable chips, equal to the background because darkening is a no-op |
| StatusChip.CounterText | build/lib/pyqt_widgets/feedback/status_chip.py:388-395 | "{label} ({count})" starts with the label and ends in ')', or is the bare count |
| StatusChip.CounterTextInjective | build/lib/pyqt_widgets/feedback/status_chip.py:388-395 | under one label, different counts give different texts |
| StatusChip.StatusChipWidget.constructor | build/lib/pyqt_widgets/feedback/status_chip.py:16-77 | the fields as given; an icon label exactly for a non-empty glyph; the chip shows its text, icon and style |
| StatusChip.StatusChipWidget.Cycling | build/lib/pyqt_widgets/feedback/status_chip.py:319-324 | clickable medium chip on the default statuses when none are given, showing the status at the (possibly negative) index |
| StatusChip.StatusChipWidget.NewCycling | build/lib/pyqt_widgets/feedback/status_chip.py:319-323 | no chip exactly when the index finds no status (Python's IndexError) |
| StatusChip.StatusChipWidget.Pulsing | build/lib/pyqt_widgets/feedback/status_chip.py:347-349 | a medium, not clickable chip |
| StatusChip.StatusChipWidget.Counting | build/lib/pyqt_widgets/feedback/status_chip.py:385-390 | the counter text for the label and count |
| StatusChip.StatusChipWidget.SetText | build/lib/pyqt_widgets/feedback/status_chip.py:216-219 | the text, shown while the chip is live |
| StatusChip.StatusChipWidget.ApplyStatus | build/lib/pyqt_widgets/feedback/status_chip.py:221-224 | the status, its style shown while the chip is live |
| StatusChip.StatusChipWidget.SetStatus | build/lib/pyqt_widgets/feedback/status_chip.py:221-379 | an animated chip ignores its own status and pulses exactly on a change; other chips always apply it |
| StatusChip.StatusChipWidget.SetClickable | build/lib/pyqt_widgets/feedback/status_chip.py:239-246 | the flag and the hover style |
| StatusChip.StatusChipWidget.SetIcon | build/lib/pyqt_widgets/feedback/status_chip.py:226-237 | as written: a glyph updates an existing icon label, None raises AttributeError, and without a label the chip stops being live with its screen unchanged |
| StatusChip.StatusChipWidget.SetIconIntended | build/lib/pyqt_widgets/feedback/status_chip.py:226-237 | the rebuilt chip shows its text, style and (non-empty) icon |
| StatusChip.IconFreezesChip | build/lib/pyqt_widgets/feedback/status_chip.py:226-237 | after set_icon and set_text the chip as written still shows "Draft"; the intended one shows "Published" and the icon |
| StatusChip.StatusChipWidget.Click | build/lib/pyqt_widgets/feedback/status_chip.py:210-324 | clicked exactly for clickable chips; an interactive one then cycles |
| StatusChip.StatusChipWidget.CycleStatus | build/lib/pyqt_widgets/feedback/status_chip.py:326-331 | the index advances modulo the number of statuses and the new status is shown and emitted; no statuses raise ZeroDivisionError |
| StatusChip.StatusChipWidget.SetStatuses | build/lib/pyqt_widgets/feedback/status_chip.py:333-337 | the statuses stored and the index reset to 0, showing the first; an empty list raises IndexError |
| StatusChip.StatusChipWidget.SetCount | build/lib/pyqt_widgets/feedback/status_chip.py:392-396 | the count as given and its counter text |
| StatusChip.StatusChipWidget.Increment | build/lib/pyqt_widgets/feedback/status_chip.py:398-400 | one more |
| StatusChip.StatusChipWidget.Decrement | build/lib/pyqt_widgets/feedback/status_chip.py:402-404 | one less, floored at 0 |
| StatusChip.FirstWithText | build/lib/pyqt_widgets/feedback/status_chip.py:297-301 | the first chip with the text, or none |
| StatusChip.StatusChipGroup.AddChip | build/lib/pyqt_widgets/feedback/status_chip.py:284-293 | the chip appended |
| StatusChip.StatusChipGroup.RemoveChip | build/lib/pyqt_widgets/feedback/status_chip.py:295-301 | only the first chip with the text removed; none changes nothing |
| StatusChip.RemoveChipTexts | build/lib/pyqt_widgets/feedback/status_chip.py:295-311 | removal takes exactly one occurrence of the text out of get_chips |
| StatusChip.StatusChipGroup.ClearChips | build/lib/pyqt_widgets/feedback/status_chip.py:303-307 | no chips |
| StatusChip.StatusChipGroup.GetChips | build/lib/pyqt_widgets/feedback/status_chip.py:309-311 | the texts in order, one per chip |
| StatusChip.StatusChipGroup.ClickChip | build/lib/pyqt_widgets/feedback/status_chip.py:286-288 | chip_clicked with the text and status given at add time, only for clickable chips |
| Snackbar.UndoInfo | build/lib/pyqt_widgets/feedback/snackbar.py:226-228 | an "UNDO" action with the message, 4000 ms by default |
| Snackbar.RetryInfo | build/lib/pyqt_widgets/feedback/snackbar.py:231-233 | a "RETRY" action with the message, 6000 ms by default |
| Snackbar.RestingPosition | build/lib/pyqt_widgets/feedback/snackbar.py:105-120 | horizontally centred (floor division) and 80 pixels above the bottom of the screen |
| Snackbar.CustomStyle | build/lib/pyqt_widgets/feedback/snackbar.py:245-275 | the style table; an unknown style is the default one, the plain snackbar's colours |
| Snackbar.SnackbarWidget.constructor | build/lib/pyqt_widgets/feedback/snackbar.py:17-96 | an action button exactly for a non-empty action text; auto-dismiss armed exactly for a positive duration; hidden |
| Snackbar.SnackbarWidget.Styled | build/lib/pyqt_widgets/feedback/snackbar.py:239-243 | the custom style's colours |
| Snackbar.SnackbarWidget.Sticky | build/lib/pyqt_widgets/feedback/snackbar.py:306-307 | no auto-dismiss |
| Snackbar.SnackbarWidget.WithProgress | build/lib/pyqt_widgets/feedback/snackbar.py:313-316 | no action, no auto-dismiss, progress 0 |
| Snackbar.SnackbarWidget.WithActions | build/lib/pyqt_widgets/feedback/snackbar.py:365-368 | the actions kept, no single action button |
| Snackbar.SnackbarWidget.Buttons | build/lib/pyqt_widgets/feedback/snackbar.py:44-404 | the action (or each multi-action, in order) and then the close button last |
| Snackbar.SnackbarWidget.Show | build/lib/pyqt_widgets/feedback/snackbar.py:103-122 | as written: shown at the bottom edge of the available area, 80 pixels below its resting position (the slide-up animation is deleted on return after its start value is applied) |
| Snackbar.SnackbarWidget.ShowIntended | build/lib/pyqt_widgets/feedback/snackbar.py:103-122 | intended: shown at its resting position |
| Snackbar.SnackbarWidget.CloseAnimated | build/lib/pyqt_widgets/feedback/snackbar.py:124-141 | as written: closed is not emitted and nothing changes (the local animation is deleted before it finishes) |
| Snackbar.SnackbarWidget.CloseAnimatedIntended | build/lib/pyqt_widgets/feedback/snackbar.py:124-141 | intended: slid below the screen, hidden, closed emitted |
| Snackbar.SnackbarWidget.ClickAction | build/lib/pyqt_widgets/feedback/snackbar.py:98-101 | action_clicked emitted; as written the snackbar stays open and closed is not emitted |
| Snackbar.SnackbarWidget.ClickActionIntended | build/lib/pyqt_widgets/feedback/snackbar.py:98-101 | with the intended close: action_clicked, then closed and hidden |
| Snackbar.SnackbarWidget.ClickMultiAction | build/lib/pyqt_widgets/feedback/snackbar.py:406-410 | the callback runs exactly when callable; as written the snackbar stays open and closed is not emitted |
| Snackbar.SnackbarWidget.ClickMultiActionIntended | build/lib/pyqt_widgets/feedback/snackbar.py:406-410 | with the intended close: the callback runs exactly when callable, then closed and hidden |
| Snackbar.SnackbarWidget.SetMessage | build/lib/pyqt_widgets/feedback/snackbar.py:143-146 | the message |
| Snackbar.SnackbarWidget.SetActionText | build/lib/pyqt_widgets/feedback/snackbar.py:148-152 | stored; the button changes only when there is one |
| Snackbar.SnackbarWidget.SetProgress | build/lib/pyqt_widgets/feedback/snackbar.py:347-355 | stored as given, the bar takes values within 0 to 100, a close is scheduled exactly from 100 |
| Snackbar.SnackbarManager.constructor | build/lib/pyqt_widgets/feedback/snackbar.py:166-168 | nothing current, nothing queued |
| Snackbar.SnackbarManager.ShowNext | build/lib/pyqt_widgets/feedback/snackbar.py:183-192 | a new snackbar made, shown and current |
| Snackbar.SnackbarManager.ShowSnackbar | build/lib/pyqt_widgets/feedback/snackbar.py:170-181 | shown at once when nothing is current, else queued at the back; one on screen stays one on screen |
| Snackbar.SnackbarManager.SnackbarClosed | build/lib/pyqt_widgets/feedback/snackbar.py:194-200 | as written: whichever snackbar closed, the current one is forgotten and the front of the queue shown (FIFO) |
| Snackbar.SnackbarManager.SnackbarClosedIntended | build/lib/pyqt_widgets/feedback/snackbar.py:194-200 | only the current snackbar's closing shows the front of the queue; exactly the current snackbar stays on screen |
| Snackbar.StaleTimerShowsTwo | build/lib/pyqt_widgets/feedback/snackbar.py:94-200 | in a snackbar whose close completes: after a hand close and the stale timer, "b" and "c" are both on screen |
| Snackbar.StaleTimerIntended | build/lib/pyqt_widgets/feedback/snackbar.py:194-200 | the intended handler leaves "b" alone on screen and "c" queued |
| Snackbar.SnackbarManager.ClearQueue | build/lib/pyqt_widgets/feedback/snackbar.py:202-204 | the queue empties, the current snackbar stays |
| Snackbar.SnackbarManager.CloseCurrent | build/lib/pyqt_widgets/feedback/snackbar.py:206-209 | as written: the current snackbar stays current (its close never completes) |
| Snackbar.SnackbarManager.CloseCurrentIntended | build/lib/pyqt_widgets/feedback/snackbar.py:206-209 | with the intended close: the current snackbar closes and the next one shows; nothing current changes nothing |
| Snackbar.QueueStuck | build/lib/pyqt_widgets/feedback/snackbar.py:124-209 | as written, after showing "a" and "b" and close_current, "a" is still current and "b" still waits |
| Snackbar.QueueMovesIntended | build/lib/pyqt_widgets/feedback/snackbar.py:124-209 | with the intended close, close_current shows "b" and empties the queue |
| Snackbar.SnackbarManager.QueueLength | build/lib/pyqt_widgets/feedback/snackbar.py:211-213 | the number waiting |
| NotificationToast.TypeIcon | pyqt_widgets/feedback/notification_toast.py:94-104 | the type icons; an unknown type shows ℹ |
| NotificationToast.TypeBackground | pyqt_widgets/feedback/notification_toast.py:113-134 | the type background tokens; an unknown type uses info's |
| NotificationToast.UnknownTypeIsInfo | pyqt_widgets/feedback/notification_toast.py:103-134 | an unknown type has info's icon and colours |
| NotificationToast.PresetDuration | pyqt_widgets/feedback/notification_toast.py:306-323 | error toasts last 5000 ms, all others 3000 ms |
| NotificationToast.ToastPoint | pyqt_widgets/feedback/notification_toast.py:186-207 | 20-pixel margins at the corners and top/bottom centres, centred by floor division elsewhere, an unknown position centred on the screen |
| NotificationToast.ToastPointAgreesWithBasePopup | pyqt_widgets/feedback/notification_toast.py:186-207 | the corners and the centre agree with the base toast popup's placement |
| NotificationToast.NotificationToastWidget.constructor | pyqt_widgets/feedback/notification_toast.py:17-92 | hidden, no actions, icon and colours of the type, auto-dismiss exactly for a positive duration |
| NotificationToast.NotificationToastWidget.Sticky | pyqt_widgets/feedback/notification_toast.py:329-335 | no auto-dismiss |
| NotificationToast.NotificationToastWidget.WithActions | pyqt_widgets/feedback/notification_toast.py:341-349 | "primary" and "secondary" actions for the non-empty texts, in that order, top-right |
| NotificationToast.NotificationToastWidget.Progressing | pyqt_widgets/feedback/notification_toast.py:355-381 | progress 0, and a bar that is never put in a layout |
| NotificationToast.NotificationToastWidget.AddAction | pyqt_widgets/feedback/notification_toast.py:149-175 | the button appended with the given or derived name, and the row shown |
| NotificationToast.NotificationToastWidget.ClickAction | pyqt_widgets/feedback/notification_toast.py:156-180 | the action's name emitted; as written the toast stays open and closed is not emitted |
| NotificationToast.NotificationToastWidget.ClickActionIntended | pyqt_widgets/feedback/notification_toast.py:156-180 | with the intended close: the action's name emitted, then closed and hidden |
| NotificationToast.NotificationToastWidget.CloseAnimated | build/lib/pyqt_widgets/base/base_popup.py:89-96 | as written: closed not emitted, the toast stays shown |
| NotificationToast.NotificationToastWidget.CloseAnimatedIntended | build/lib/pyqt_widgets/base/base_popup.py:89-96 | intended: hidden and closed emitted |
| NotificationToast.NotificationToastWidget.ShowToast | pyqt_widgets/feedback/notification_toast.py:182-184 | as written: always NameError, nothing shown |
| NotificationToast.NotificationToastWidget.ShowToastAt | pyqt_widgets/feedback/notification_toast.py:186-219 | shown 50 pixels above its position's point (the slide-in's start, where the deleted animation leaves it), with no regard to its stacking offset |
| NotificationToast.NotificationToastWidget.SetMessage | pyqt_widgets/feedback/notification_toast.py:221-224 | the message |
| NotificationToast.NotificationToastWidget.SetType | pyqt_widgets/feedback/notification_toast.py:226-230 | the type with its icon and colours |
| NotificationToast.NotificationToastWidget.SetProgress | pyqt_widgets/feedback/notification_toast.py:383-390 | stored as given, the bar takes values within 0 to 100, a close scheduled exactly from 100 |
| NotificationToast.StackHeight | pyqt_widgets/feedback/notification_toast.py:274-278 | the heights plus spacing of the toasts at the position; never negative for real heights |
| NotificationToast.StackHeightOtherPositions | pyqt_widgets/feedback/notification_toast.py:276-278 | toasts elsewhere add nothing |
| NotificationToast.StackHeightAppend | pyqt_widgets/feedback/notification_toast.py:276-278 | a toast at the same position adds its height and the spacing |
| NotificationToast.PositionOffset | pyqt_widgets/feedback/notification_toast.py:269-284 | no offset with no active toast; the stack height for "top" positions, negated for "bottom" ones, none for others |
| NotificationToast.ToastManager.constructor | pyqt_widgets/feedback/notification_toast.py:244-247 | no active toasts, at most 5, spacing 10 |
| NotificationToast.ToastManager.MakeRoom | pyqt_widgets/feedback/notification_toast.py:252-255 | with five active the oldest leaves the list (its close does not complete), leaving fewer than five |
| NotificationToast.ToastManager.ShowToast | pyqt_widgets/feedback/notification_toast.py:249-267 | as written: room made, the new toast appended last with its offset and never shown, NameError raised; at most five active |
| NotificationToast.ToastManager.ShowToastIntended | pyqt_widgets/feedback/notification_toast.py:249-284 | the new toast shown at its point moved by its offset |
| NotificationToast.StackedPoint | pyqt_widgets/feedback/notification_toast.py:280-284 | the point moved vertically by the offset, when there is one |
| NotificationToast.SecondToastCoversFirst | pyqt_widgets/feedback/notification_toast.py:182-284 | two top-right toasts both land at y = -30 as written; the intended second one at 90 |
| NotificationToast.ToastManager.RemoveToast | pyqt_widgets/feedback/notification_toast.py:286-289 | a listed toast leaves the list; an absent one changes nothing |
| NotificationToast.ToastManager.ClearAllToasts | pyqt_widgets/feedback/notification_toast.py:291-294 | as written: no close completes, so every toast stays listed |
| NotificationToast.ToastManager.ClearAllToastsIntended | pyqt_widgets/feedback/notification_toast.py:286-294 | with the intended close: every toast closes and leaves the list |
| NotificationToast.ToastManager.ActiveCount | pyqt_widgets/feedback/notification_toast.py:296-298 | the number active, never above five |
| ProgressOverlay.ClampProgress | pyqt_widgets/feedback/progress_overlay.py:205 | the progress kept within 0..100, unchanged inside it |
| ProgressOverlay.ContentItems | pyqt_widgets/feedback/progress_overlay.py:53-88 | the box holds the type's indicator (none for an unknown type), the message, and the cancel button exactly when cancellable, last |
| ProgressOverlay.DotColors | pyqt_widgets/feedback/progress_overlay.py:158-166 | exactly the current dot is primary, the others text_secondary |
| ProgressOverlay.ProgressOverlayWidget.constructor | pyqt_widgets/feedback/progress_overlay.py:16-156 | hidden at 0, drawn fully, a bar exactly for the bar type, three primary dots for the dots type |
| ProgressOverlay.ProgressOverlayWidget.SimpleLoading | pyqt_widgets/feedback/progress_overlay.py:229-233 | a spinner and the message, no cancel button |
| ProgressOverlay.ProgressOverlayWidget.BarOverlay | pyqt_widgets/feedback/progress_overlay.py:236-240 | a bar, the message and a cancel button |
| ProgressOverlay.ProgressOverlayWidget.Custom | pyqt_widgets/feedback/progress_overlay.py:243-258 | the custom widget inserted between the spinner and the message |
| ProgressOverlay.ProgressOverlayWidget.Blocking | pyqt_widgets/feedback/progress_overlay.py:261-265 | a spinner overlay that grabs input |
| ProgressOverlay.ProgressOverlayWidget.ShowOverlay | pyqt_widgets/feedback/progress_overlay.py:169-274 | as written: shown, the spinner or dots started, input grabbed when blocking, and transparent, so not seen |
| ProgressOverlay.ProgressOverlayWidget.ShowOverlayIntended | pyqt_widgets/feedback/progress_overlay.py:169-274 | with the intended fade-in: the same, and seen at full opacity |
| ProgressOverlay.ProgressOverlayWidget.HideOverlay | pyqt_widgets/feedback/progress_overlay.py:186-282 | as written: animations stopped and input released when blocking, but the overlay stays shown and turns opaque |
| ProgressOverlay.ProgressOverlayWidget.HideOverlayIntended | pyqt_widgets/feedback/progress_overlay.py:186-282 | intended: animations stopped, input released when blocking, faded out and hidden |
| ProgressOverlay.ProgressOverlayWidget.SetMessage | pyqt_widgets/feedback/progress_overlay.py:198-201 | the message |
| ProgressOverlay.ProgressOverlayWidget.SetProgress | pyqt_widgets/feedback/progress_overlay.py:203-212 | the progress clamped to 0..100, shown on the bar when there is one; a hide scheduled exactly from 100 |
| ProgressOverlay.ProgressOverlayWidget.GetProgress | pyqt_widgets/feedback/progress_overlay.py:214-216 | the progress, always within 0..100 |
| ProgressOverlay.ProgressOverlayWidget.AnimateDots | pyqt_widgets/feedback/progress_overlay.py:158-167 | the current dot highlighted and the next, modulo 3, made current; an overlay without dots raises AttributeError |
| ProgressOverlay.ProgressOverlayWidget.MousePress | pyqt_widgets/feedback/progress_overlay.py:288-294 | a blocking overlay consumes presses outside its content box and passes on the rest |
| ProgressOverlay.ProgressOverlayManager.constructor | pyqt_widgets/feedback/progress_overlay.py:300-301 | no overlays |
| ProgressOverlay.ProgressOverlayManager.IsShowingProgress | pyqt_widgets/feedback/progress_overlay.py:337-339 | whether the widget is listed |
| ProgressOverlay.ProgressOverlayManager.HideProgress | pyqt_widgets/feedback/progress_overlay.py:325-330 | as written: a listed widget's overlay unlisted, its indicator stopped, left shown and opaque; an unknown widget changes nothing |
| ProgressOverlay.ProgressOverlayManager.HideProgressIntended | pyqt_widgets/feedback/progress_overlay.py:325-330 | with the intended fade-out: a listed widget's overlay hidden and unlisted; an unknown widget changes nothing |
| ProgressOverlay.ProgressOverlayManager.ShowProgress | pyqt_widgets/feedback/progress_overlay.py:303-315 | as written: a previous overlay of the widget left shown and opaque, a fresh transparent one listed last: one overlay listed per widget |
| ProgressOverlay.ProgressOverlayManager.ShowProgressIntended | pyqt_widgets/feedback/progress_overlay.py:303-315 | with the intended fades: any previous overlay hidden, a fresh seen one listed last |
| ProgressOverlay.ProgressOverlayManager.UpdateProgress | pyqt_widgets/feedback/progress_overlay.py:317-323 | the listed overlay takes the clamped progress and a non-empty message, its visibility unchanged; an unknown widget changes nothing |
| ProgressOverlay.ProgressOverlayManager.AutoHideFires | pyqt_widgets/feedback/progress_overlay.py:211-212 | as written: the completed overlay's indicator stops and it turns opaque, still shown and still listed |
| ProgressOverlay.ProgressOverlayManager.UpdateProgressIntended | pyqt_widgets/feedback/progress_overlay.py:203-330 | intended: a completed overlay is hidden and unlisted |
| ProgressOverlay.ProgressOverlayManager.HideAllProgress | pyqt_widgets/feedback/progress_overlay.py:332-335 | as written: none left listed, every overlay opaque with its indicator stopped and still shown as it was |
| ProgressOverlay.ProgressOverlayManager.HideAllProgressIntended | pyqt_widgets/feedback/progress_overlay.py:332-335 | with the intended fade-out: every overlay hidden and none left listed |
| ProgressOverlay.CompletedOverlayStillListed | pyqt_widgets/feedback/progress_overlay.py:169-339 | as written: not seen while running, and after reaching 100 still listed and now seen |
| ProgressOverlay.CompletedOverlayIntended | pyqt_widgets/feedback/progress_overlay.py:169-330 | intended: seen while running, then neither listed nor shown |
| Tooltip.TooltipAt | pyqt_widgets/feedback/tooltip.py:124-141 | ten pixels above the cursor, clamped to the screen's right and then its left edge, and 20 pixels below the cursor when above would leave the top |
| Tooltip.TooltipOnScreen | pyqt_widgets/feedback/tooltip.py:129-139 | a tooltip narrower than the screen lies horizontally on it and never above its top |
| Tooltip.ForWidgetPoint | pyqt_widgets/feedback/tooltip.py:143-164 | 5 pixels above, below, left or right of the widget, centred on the other axis; centred on the widget for any other position |
| Tooltip.CentredWithinAPixel | pyqt_widgets/feedback/tooltip.py:149-161 | halving the two widths separately centres within one pixel |
| Tooltip.StatusIcon | pyqt_widgets/feedback/tooltip.py:359-367 | the status icons; an unknown status shows ℹ |
| Tooltip.StatusBackground | pyqt_widgets/feedback/tooltip.py:375-383 | the status background tokens; an unknown status keeps dark |
| Tooltip.HelpItems | pyqt_widgets/feedback/tooltip.py:340-351 | title and description rows when non-empty, a separator and the "Shortcut: " row when a shortcut is given |
| Tooltip.TooltipWidget.constructor | pyqt_widgets/feedback/tooltip.py:17-89 | a text label exactly for a non-empty text, an icon label exactly for a non-empty icon, no actions, hidden, drawn fully |
| Tooltip.TooltipWidget.Status | pyqt_widgets/feedback/tooltip.py:357-392 | the details as text with the status icon and background, 200 ms delay |
| Tooltip.TooltipWidget.Interactive | pyqt_widgets/feedback/tooltip.py:398-427 | delay 0, and a close button exactly when the text is non-empty, since only then is there a header |
| Tooltip.TooltipWidget.Rich | pyqt_widgets/feedback/tooltip.py:281-295 | no text or icon and no rows |
| Tooltip.TooltipWidget.Help | pyqt_widgets/feedback/tooltip.py:340-351 | the rows of the help items |
| Tooltip.TooltipWidget.AddTitle | pyqt_widgets/feedback/tooltip.py:297-304 | a title row appended |
| Tooltip.TooltipWidget.AddDescription | pyqt_widgets/feedback/tooltip.py:306-312 | a description row appended |
| Tooltip.TooltipWidget.AddShortcut | pyqt_widgets/feedback/tooltip.py:314-326 | a "Shortcut: " row appended |
| Tooltip.TooltipWidget.AddSeparator | pyqt_widgets/feedback/tooltip.py:328-334 | a separator row appended |
| Tooltip.TooltipWidget.AddAction | pyqt_widgets/feedback/tooltip.py:91-117 | the action appended with the given or derived name, and the action row shown |
| Tooltip.TooltipWidget.ClickAction | pyqt_widgets/feedback/tooltip.py:98-122 | the action's name emitted; as written close_animated leaves the tooltip shown and makes it opaque |
| Tooltip.TooltipWidget.ClickActionIntended | pyqt_widgets/feedback/tooltip.py:98-122 | with the intended close: the action's name emitted and the tooltip hidden |
| Tooltip.TooltipWidget.CloseAnimated | build/lib/pyqt_widgets/base/base_popup.py:89-96 | as written: full opacity, still shown, closed not emitted |
| Tooltip.TooltipWidget.CloseAnimatedIntended | build/lib/pyqt_widgets/base/base_popup.py:89-96 | intended: hidden, transparent, closed emitted |
| Tooltip.TooltipWidget.ShowTooltipAt | pyqt_widgets/feedback/tooltip.py:124-141 | as written: shown at the cursor placement, transparent |
| Tooltip.TooltipWidget.ShowTooltipAtIntended | pyqt_widgets/feedback/tooltip.py:124-141 | with the intended fade-in: seen at the cursor placement |
| Tooltip.TooltipWidget.ShowForWidget | pyqt_widgets/feedback/tooltip.py:143-164 | as written: shown at the placement beside the widget, transparent |
| Tooltip.TooltipWidget.ShowForWidgetIntended | pyqt_widgets/feedback/tooltip.py:143-164 | with the intended fade-in: seen at the placement beside the widget |
| Tooltip.TooltipWidget.SetText | pyqt_widgets/feedback/tooltip.py:166-170 | the text stored, and shown only when a text label exists |
| Tooltip.TooltipWidget.SetIcon | pyqt_widgets/feedback/tooltip.py:172-179 | the icon stored, and shown only when an icon label exists |
| Tooltip.TooltipManager.constructor | pyqt_widgets/feedback/tooltip.py:186-192 | as written: no tooltips, and idle: no hover timer and no current tooltip |
| Tooltip.TooltipManager.SetTooltip | pyqt_widgets/feedback/tooltip.py:194-204 | as written: always TypeError; a new widget's tooltip is stored before the raise, a covered widget keeps its old one; the manager stays idle |
| Tooltip.TooltipManager.RemoveTooltip | pyqt_widgets/feedback/tooltip.py:206-214 | as written: TypeError exactly for a covered widget, and nothing changes |
| Tooltip.ManagerNeverShows | pyqt_widgets/feedback/tooltip.py:186-260 | as written, two set_tooltip calls on one widget both raise, the first text stays, and no tooltip is current |
| Tooltip.TooltipManagerIntended.constructor | pyqt_widgets/feedback/tooltip.py:186-192 | intended (a QObject manager): no tooltips, timers or current tooltip |
| Tooltip.TooltipManagerIntended.RemoveTooltip | pyqt_widgets/feedback/tooltip.py:206-214 | intended: the widget's tooltip and timer dropped, the current tooltip left as it is |
| Tooltip.TooltipManagerIntended.SetTooltip | pyqt_widgets/feedback/tooltip.py:194-204 | intended: a fresh tooltip with the text and delay replaces the widget's old one; other widgets keep theirs |
| Tooltip.TooltipManagerIntended.Enter | pyqt_widgets/feedback/tooltip.py:216-237 | a covered widget's hover timer starts with its tooltip's delay; others change nothing |
| Tooltip.TooltipManagerIntended.HideCurrent | pyqt_widgets/feedback/tooltip.py:256-260 | intended: the current tooltip hidden once its fade-out ends, and none current |
| Tooltip.TooltipManagerIntended.Leave | pyqt_widgets/feedback/tooltip.py:221-243 | the covered widget's timer stopped and the current tooltip hidden |
| Tooltip.TooltipManagerIntended.HoverTimerFires | pyqt_widgets/feedback/tooltip.py:245-254 | intended: the previous tooltip hidden, the widget's seen above it and current; only the current one is ever on screen |
| Tooltip.OneTooltipAtATimeIntended | pyqt_widgets/feedback/tooltip.py:245-260 | with the intended manager, hovering two widgets in turn leaves only the second tooltip on screen |
| EmptyState.AddCaption | pyqt_widgets/feedback/empty_state.py:171 | the caption is "Add " followed by a prefix of the data type that does not end in s |
| EmptyState.AddCaptionStripsAllTrailingS | pyqt_widgets/feedback/empty_state.py:171 | `rstrip('s')` drops every trailing s: "items" gives "Add item", "address" gives "Add addre" |
| EmptyState.SearchTitle | pyqt_widgets/feedback/empty_state.py:177-186 | a non-empty query appears quoted inside the title; an empty one gives "No search results" |
| EmptyState.RotationChar | pyqt_widgets/feedback/empty_state.py:233-238 | the four rotation states alternate ⟳ and ⟲, starting with ⟳ |
| EmptyState.Requested | pyqt_widgets/feedback/empty_state.py:303-313 | at most one button per entry of the action list |
| EmptyState.RequestedOne | pyqt_widgets/feedback/empty_state.py:303-313 | a dict always gives a button, a list or tuple only with at least two parts, anything else none |
| EmptyState.EmptyStateWidget.constructor | pyqt_widgets/feedback/empty_state.py:17-87 | icon and message labels exist only for a given icon and a non-empty message; everything is on screen, the action container hidden and no separate action window open |
| EmptyState.EmptyStateWidget.Loading | pyqt_widgets/feedback/empty_state.py:209-220 | the loading preset starts at rotation 0 showing ⟳ |
| EmptyState.EmptyStateWidget.Custom | pyqt_widgets/feedback/empty_state.py:285-289 | the custom preset starts with no icon or message label |
| EmptyState.EmptyStateWidget.AddAction | pyqt_widgets/feedback/empty_state.py:89-101 | the button is appended under the given name or the text lower-cased with spaces as underscores, and the container is shown: in the placeholder when it is the one on screen, otherwise as a separate top-level window holding the button |
| EmptyState.EmptyStateWidget.RemoveAction | pyqt_widgets/feedback/empty_state.py:103-113 | the first action of that name is removed and an absent name changes nothing; the container is hidden once no action is left |
| EmptyState.EmptyStateWidget.ClearActions | pyqt_widgets/feedback/empty_state.py:115-120 | no actions remain and the container is hidden |
| EmptyState.EmptyStateWidget.ClickAction | pyqt_widgets/feedback/empty_state.py:94-95 | a click emits that button's action name, also for a button in a separate action window |
| EmptyState.EmptyStateWidget.SetTitle | pyqt_widgets/feedback/empty_state.py:122-125 | the title is stored, and shown when its label is on screen |
| EmptyState.EmptyStateWidget.SetupAgain | pyqt_widgets/feedback/empty_state.py:25-87 | running the setup again makes new labels and a new container with no parent, because the widget already has a layout; none is in the placeholder, and an action window already open stays open |
| EmptyState.EmptyStateWidget.SetMessage | pyqt_widgets/feedback/empty_state.py:127-134 | the message is shown if its label is on screen; without a label, a non-empty message sets the UI up again, so title, message and later actions leave the placeholder and an open action window stays open |
| EmptyState.EmptyStateWidget.SetIcon | pyqt_widgets/feedback/empty_state.py:136-149 | the icon is shown if its label is on screen, None fails with AttributeError, and without a label a given icon sets the UI up again outside the placeholder, keeping an open action window open |
| EmptyState.EmptyStateWidget.SetMessageIntended | pyqt_widgets/feedback/empty_state.py:127-134 | a missing message label is added on screen and shows the message |
| EmptyState.EmptyStateWidget.SetIconIntended | pyqt_widgets/feedback/empty_state.py:136-149 | a missing icon label is added on screen and shows the icon |
| EmptyState.EmptyStateWidget.RotateIcon | pyqt_widgets/feedback/empty_state.py:233-238 | the rotation advances modulo 4 and its arrow is shown on the icon label |
| EmptyState.EmptyStateWidget.AddSpec | pyqt_widgets/feedback/empty_state.py:303-313 | one entry's button is appended when the entry is accepted |
| EmptyState.EmptyStateWidget.ReplaceActions | pyqt_widgets/feedback/empty_state.py:299-313 | the actions become exactly the accepted entries in order, and the container is shown iff there is one |
| EmptyState.EmptyStateWidget.SetLabels | pyqt_widgets/feedback/empty_state.py:293-297 | title, message and the given icon are stored; a missing label for a new message or icon moves the action container out of the placeholder, and no action window opens or closes |
| EmptyState.EmptyStateWidget.SetContent | pyqt_widgets/feedback/empty_state.py:291-313 | labels, then actions replaced by the accepted entries; the buttons reach the placeholder only if no label was missing, and otherwise open as a separate window, while an action window left by an earlier setup stays open |
| EmptyState.EmptyStateWidget.SetLabelsIntended | pyqt_widgets/feedback/empty_state.py:293-297 | every label stays on screen and shows its new text |
| EmptyState.EmptyStateWidget.SetContentIntended | pyqt_widgets/feedback/empty_state.py:291-313 | title, message, icon and every accepted button are in the placeholder, and no action window opens |
| EmptyState.NewNoData | pyqt_widgets/feedback/empty_state.py:160-171 | "No … found", its message, 📭, and one on-screen "add_item" button |
| EmptyState.NewSearch | pyqt_widgets/feedback/empty_state.py:174-191 | the search title, the message chosen by the query, 🔍, and clear and browse actions |
| EmptyState.NewError | pyqt_widgets/feedback/empty_state.py:194-206 | the given message or the default one, ⚠️, and retry and report actions |
| EmptyState.NewPermission | pyqt_widgets/feedback/empty_state.py:241-253 | "Access denied", the resource in the message, 🔒, and request and back actions |
| EmptyState.NewMaintenance | pyqt_widgets/feedback/empty_state.py:256-267 | "Under maintenance", 🔧, and a check-status action |
| EmptyState.NewFirstTime | pyqt_widgets/feedback/empty_state.py:270-282 | the feature named in title and message, 🎉, and get-started and tour actions |
| EmptyState.CustomContentHidden | pyqt_widgets/feedback/empty_state.py:127-313 | filling a custom placeholder as written shows only its title: no message, no icon, no button in the placeholder, and the Add button in a window of its own |
| EmptyState.CustomContentIntended | pyqt_widgets/feedback/empty_state.py:291-313 | with the intended updates, title, message, icon and the button are all shown in the placeholder, and no separate window opens |
| ClipboardHistory.RecordedContents | pyqt_widgets/utility/clipboard_history.py:168-191 | recording an entry moves its content to the front under the most-recent-first rule shared with the search histories |
| ClipboardHistory.RecordedFrontDistinct | pyqt_widgets/utility/clipboard_history.py:168-191 | with a cap of at least one, the new entry comes first, no content is listed twice and the cap holds |
| ClipboardHistory.RemoveContentAt | pyqt_widgets/utility/clipboard_history.py:170-175 | the search loop's first match is exactly the entry that is removed, and nothing is removed without a match |
| ClipboardHistory.ReplaceChar | pyqt_widgets/utility/clipboard_history.py:260-334 | a character not in the replacement is gone afterwards, and text without it is unchanged |
| ClipboardHistory.Truncated | pyqt_widgets/utility/clipboard_history.py:328-411 | text within the limit is kept whole; longer text keeps exactly its first n characters followed by "..." |
| ClipboardHistory.Preview | pyqt_widgets/utility/clipboard_history.py:327-334 | a preview contains no newline, and short single-line content is shown as it is |
| ClipboardHistory.PlainText | pyqt_widgets/utility/clipboard_history.py:256-262 | the copied plain text has no newline, is no longer than the content and has no surrounding whitespace |
| ClipboardHistory.Previews | pyqt_widgets/utility/clipboard_history.py:193-203 | one preview per entry, in history order |
| ClipboardHistory.ImageInfo | pyqt_widgets/utility/clipboard_history.py:163 | an image is recorded as "Image (" followed by its formats and ")" |
| ClipboardHistory.CheckedTwice | pyqt_widgets/utility/clipboard_history.py:149-166 | seeing the same text twice in a row records it once, and a blank text is never recorded |
| ClipboardHistory.DeleteAtContents | pyqt_widgets/utility/clipboard_history.py:264-269 | deleting a row removes exactly that entry's content and keeps the contents distinct |
| ClipboardHistory.ClipboardHistoryWidget.UpdateList | pyqt_widgets/utility/clipboard_history.py:193-206 | the list shows one preview per entry and the status line the count |
| ClipboardHistory.ClipboardHistoryWidget.constructor | pyqt_widgets/utility/clipboard_history.py:22-143 | the history starts empty with monitoring on, and then the clipboard is checked once |
| ClipboardHistory.ClipboardHistoryWidget.AddToHistory | pyqt_widgets/utility/clipboard_history.py:168-191 | the loop's result is the recorded history; its contents follow the most-recent-first rule; with a cap of at least one the entry comes first and the cap holds |
| ClipboardHistory.ClipboardHistoryWidget.CheckClipboard | pyqt_widgets/utility/clipboard_history.py:149-166 | nothing happens while monitoring is off; otherwise a new, non-blank stripped text or a new image description is recorded and remembered as the last text |
| ClipboardHistory.ClipboardHistoryWidget.ItemClicked | pyqt_widgets/utility/clipboard_history.py:208-217 | a click on a row copies and emits that entry's content; a click off the list does nothing |
| ClipboardHistory.ClipboardHistoryWidget.CopyAsPlain | pyqt_widgets/utility/clipboard_history.py:256-262 | the row's content is copied flattened to one line |
| ClipboardHistory.ClipboardHistoryWidget.DeleteItem | pyqt_widgets/utility/clipboard_history.py:264-269 | only a row inside the history is removed, and it takes exactly its own content |
| ClipboardHistory.ClipboardHistoryWidget.ToggleMonitoring | pyqt_widgets/utility/clipboard_history.py:271-278 | the monitor flag follows the button and its caption says ON or OFF |
| ClipboardHistory.ClipboardHistoryWidget.ClearHistory | pyqt_widgets/utility/clipboard_history.py:280-284 | no entries remain, the list is empty, the status reads "0 items" and history_cleared is emitted |
| ClipboardHistory.ClipboardHistoryWidget.GetHistory | pyqt_widgets/utility/clipboard_history.py:286-295 | one exported record per entry, with the same content and timestamp, in order |
| ClipboardHistory.ClipboardHistoryWidget.SetMaxItems | pyqt_widgets/utility/clipboard_history.py:297-302 | the history becomes a prefix of itself within the new non-negative cap |
| ClipboardHistory.ClipboardHistoryWidget.AddManualItem | pyqt_widgets/utility/clipboard_history.py:304-306 | a manual entry is recorded like a copy and comes first under a positive cap |
| ClipboardHistory.SimpleRecordedProps | pyqt_widgets/utility/clipboard_history.py:398-405 | a new text goes in front of the old ones, at most ten are kept without repeats, and a text already listed changes nothing |
| ClipboardHistory.SimplePreview | pyqt_widgets/utility/clipboard_history.py:411 | at most 53 characters, and short text is shown unchanged |
| ClipboardHistory.SimplePreviews | pyqt_widgets/utility/clipboard_history.py:407-412 | one preview per text, in order |
| ClipboardHistory.SimpleClipboardHistory.constructor | pyqt_widgets/utility/clipboard_history.py:376-381 | the history starts empty |
| ClipboardHistory.SimpleClipboardHistory.ClipboardChanged | pyqt_widgets/utility/clipboard_history.py:398-405 | the history becomes the simple update of the old one, and a new text comes first |
| ClipboardHistory.SimpleClipboardHistory.ItemClicked | pyqt_widgets/utility/clipboard_history.py:414-420 | a click on a row copies and emits its text; a click elsewhere does nothing |
| ShortcutHelper.ListedAtIff | pyqt_widgets/utility/shortcut_helper.py:266-270 | "every listed name is registered" read per category name and read per entry are the same condition |
| ShortcutHelper.Empty | pyqt_widgets/utility/shortcut_helper.py:22-23 | the empty registry is consistent: every shortcut listed under its category, every listed name registered |
| ShortcutHelper.Add | pyqt_widgets/utility/shortcut_helper.py:241-248 | the name maps to the new shortcut, keeping its place when it was present and going last when it was new; every other name's entry is unchanged; the name is appended to its category's list even when already there; a new category goes last; other categories' lists are unchanged |
| ShortcutHelper.AddRegistered | pyqt_widgets/utility/shortcut_helper.py:241-248 | adding keeps every registered shortcut listed under its own category |
| ShortcutHelper.AddListed | pyqt_widgets/utility/shortcut_helper.py:241-248 | adding never lists a name that is not registered |
| ShortcutHelper.Remove | pyqt_widgets/utility/shortcut_helper.py:250-259 | an unknown name changes nothing; otherwise the name leaves the registry (the others keep their order) |
| ShortcutHelper.RemoveRegistered | pyqt_widgets/utility/shortcut_helper.py:250-259 | removing keeps every remaining shortcut listed under its category, and the name being removed is always in its category's list, so `list.remove` never raises |
| ShortcutHelper.ReAddThenRemoveUnlisted | pyqt_widgets/utility/shortcut_helper.py:241-259 | adding any name twice and removing it once leaves it listed under its category though it is no longer registered |
| ShortcutHelper.Filter | pyqt_widgets/utility/shortcut_helper.py:250-259 | the list without any occurrence of the name, and nothing else removed |
| ShortcutHelper.PurgeNames | pyqt_widgets/utility/shortcut_helper.py:250-259 | purging a name from every category keeps the category names distinct and adds none |
| ShortcutHelper.PurgeListAt | pyqt_widgets/utility/shortcut_helper.py:250-259 | after the purge each category lists its old names without the removed one, and a category stays exactly when something is left in it |
| ShortcutHelper.RemoveIntended | pyqt_widgets/utility/shortcut_helper.py:250-259 | the corrected removal: an unknown name changes nothing, otherwise the name leaves the registry |
| ShortcutHelper.RemoveIntendedConsistent | pyqt_widgets/utility/shortcut_helper.py:250-259 | the corrected removal keeps both registries consistent and lists the name nowhere |
| ShortcutHelper.RowOf | pyqt_widgets/utility/shortcut_helper.py:271-274 | a row exists exactly for a registered name, showing its registered key and description |
| ShortcutHelper.RowsOf | pyqt_widgets/utility/shortcut_helper.py:270-275 | a category's rows exist exactly when all its names are registered, one row per name in list order |
| ShortcutHelper.TreeOf | pyqt_widgets/utility/shortcut_helper.py:261-278 | one group per category in dictionary order holding that category's rows; on a `KeyError` the groups before the failing category stay and that category has an unregistered name |
| ShortcutHelper.TreeOkIff | pyqt_widgets/utility/shortcut_helper.py:261-278 | the tree builds without `KeyError` exactly when every listed name is registered |
| ShortcutHelper.BuildRows | pyqt_widgets/utility/shortcut_helper.py:270-275 | the loop over a category's names computes its rows, or fails exactly when a name is unregistered |
| ShortcutHelper.BuildTree | pyqt_widgets/utility/shortcut_helper.py:261-278 | the loop over the categories computes the tree and its `KeyError` |
| ShortcutHelper.FilterGroups | pyqt_widgets/utility/shortcut_helper.py:292-303 | the filtered dictionary has distinct categories, lists under each category exactly its matching shortcuts in registration order, and holds a category exactly when it has a match |
| ShortcutHelper.MatchNamesIff | pyqt_widgets/utility/shortcut_helper.py:294-297 | a name is listed under a category by the search exactly when it is registered under that category and the query occurs in its lowercased name, key or description |
| ShortcutHelper.FilterGroupsListed | pyqt_widgets/utility/shortcut_helper.py:305-317 | every name the search lists is registered, so the filtered tree never raises |
| ShortcutHelper.FilterShortcuts | pyqt_widgets/utility/shortcut_helper.py:292-303 | the loop over the shortcuts computes the filtered dictionary |
| ShortcutHelper.SearchTree | pyqt_widgets/utility/shortcut_helper.py:284-319 | a search with a non-blank query (lowercased, then stripped) never fails; a blank query shows the full tree |
| ShortcutHelper.SearchRows | pyqt_widgets/utility/shortcut_helper.py:305-317 | under each group the search shows exactly the matching shortcuts of its category, in registration order |
| ShortcutHelper.SearchGroups | pyqt_widgets/utility/shortcut_helper.py:305-317 | the search shows a group for a category exactly when the category holds a match |
| ShortcutHelper.Matching | pyqt_widgets/utility/shortcut_helper.py:353-356 | the reported shortcuts are exactly the registered ones whose key equals the pressed key text ignoring case |
| ShortcutHelper.MatchingIff | pyqt_widgets/utility/shortcut_helper.py:353-356 | a name is reported for a key exactly when it is registered with a key equal to it up to case |
| ShortcutHelper.FindMatching | pyqt_widgets/utility/shortcut_helper.py:353-356 | the loop over the shortcuts computes the matches |
| ShortcutHelper.InfoText | pyqt_widgets/utility/shortcut_helper.py:358-364 | no match gives "No shortcut assigned to this key combination."; otherwise the text starts with "Found shortcuts:" |
| ShortcutHelper.PadRight | pyqt_widgets/utility/shortcut_helper.py:394 | `{:<20}` pads with spaces to 20 characters and never cuts a longer key |
| ShortcutHelper.ExportLine | pyqt_widgets/utility/shortcut_helper.py:394 | a line is two spaces, the key, padding to column 22, a space, the description and a newline |
| ShortcutHelper.SectionText | pyqt_widgets/utility/shortcut_helper.py:388-396 | a section starts with the category, a colon, a newline and a `-` underline exactly as long as the category |
| ShortcutHelper.ExportText | pyqt_widgets/utility/shortcut_helper.py:381-396 | the export succeeds (no `KeyError`) exactly when every listed name is registered, and starts with the title and its rule of 50 `=` |
| ShortcutHelper.ExportLines | pyqt_widgets/utility/shortcut_helper.py:392-394 | the loop over a category's names computes its lines, or fails exactly when a name is unregistered |
| ShortcutHelper.ExportSection | pyqt_widgets/utility/shortcut_helper.py:388-396 | one pass of the loop over the categories appends that category's section |
| ShortcutHelper.ExportShortcuts | pyqt_widgets/utility/shortcut_helper.py:381-396 | the loops compute the export text |
| ShortcutHelper.Activated | pyqt_widgets/utility/shortcut_helper.py:326-330 | a double click emits the row's name exactly when the row holds a non-empty name; category rows emit nothing |
| ShortcutHelper.ShortcutHelperWidget.constructor | pyqt_widgets/utility/shortcut_helper.py:20-152 | the widget starts consistent with every default registered under its own key, description and category, the tree built without error, quick help off and an empty search |
| ShortcutHelper.ShortcutHelperWidget.LoadDefaultShortcuts | pyqt_widgets/utility/shortcut_helper.py:204-239 | every default name ends up registered with its own key, description and category, the registry stays consistent, and the tree builds without error |
| ShortcutHelper.ShortcutHelperWidget.AddDefault | pyqt_widgets/utility/shortcut_helper.py:206-236 | one default registration keeps the registry consistent and every name; that default's name now maps to its key, description and category; every other name's entry is unchanged; a new name is appended last |
| ShortcutHelper.ShortcutHelperWidget.AddAll | pyqt_widgets/utility/shortcut_helper.py:206-236 | registering a list of distinct names in order leaves each name mapped to its own entry, and turns an empty registry into exactly that list, in that order |
| ShortcutHelper.DefaultsDistinct | pyqt_widgets/utility/shortcut_helper.py:206-236 | no name occurs twice among the defaults, so no default overwrites another |
| ShortcutHelper.FreshInPrefix | pyqt_widgets/utility/shortcut_helper.py:206-236 | in a list of distinct names, no entry's name occurs among the entries before it, so each registration is a new one |
| ShortcutHelper.AddedPrefixStep | pyqt_widgets/utility/shortcut_helper.py:206-236 | registering the next entry of a list with distinct names leaves every entry so far mapped to its own item, and, from an empty registry, makes the registry exactly the entries so far |
| ShortcutHelper.ShortcutHelperWidget.AddShortcut | pyqt_widgets/utility/shortcut_helper.py:241-248 | the registry becomes `Add` of the old one and stays consistent; the tree is not rebuilt |
| ShortcutHelper.ShortcutHelperWidget.RemoveShortcut | pyqt_widgets/utility/shortcut_helper.py:250-259 | the registry becomes `Remove` of the old one and stays consistent; the tree is not rebuilt |
| ShortcutHelper.ShortcutHelperWidget.RemoveShortcutIntended | pyqt_widgets/utility/shortcut_helper.py:250-259 | the corrected removal keeps every listed name registered |
| ShortcutHelper.ShortcutHelperWidget.RefreshTree | pyqt_widgets/utility/shortcut_helper.py:261-278 | the tree and its `KeyError` are those of the current registry |
| ShortcutHelper.ShortcutHelperWidget.SetSearchText | pyqt_widgets/utility/shortcut_helper.py:280-282 | the search text is stored for the debounced search |
| ShortcutHelper.ShortcutHelperWidget.PerformSearch | pyqt_widgets/utility/shortcut_helper.py:284-319 | the tree is the search result for the stored text, and a non-blank query never raises |
| ShortcutHelper.ShortcutHelperWidget.ClearSearch | pyqt_widgets/utility/shortcut_helper.py:321-324 | the search text is emptied and the full tree shown |
| ShortcutHelper.ShortcutHelperWidget.ToggleQuickHelp | pyqt_widgets/utility/shortcut_helper.py:332-341 | the overlay shows and the tree hides exactly when quick help is on |
| ShortcutHelper.ShortcutHelperWidget.KeyPress | pyqt_widgets/utility/shortcut_helper.py:343-371 | in quick-help mode the key label shows "Key: " and the key, the info label reports the matches, and Escape leaves the mode; otherwise nothing changes and the key is passed on |
| ShortcutHelper.ShortcutHelperWidget.GetShortcut | pyqt_widgets/utility/shortcut_helper.py:377-379 | an unknown name gives none |
| ShortcutHelper.ShortcutCapture.constructor | pyqt_widgets/utility/shortcut_helper.py:449-463 | the capture widget starts idle with the "Capture" button |
| ShortcutHelper.ShortcutCapture.StartCapture | pyqt_widgets/utility/shortcut_helper.py:465-472 | capturing starts; the label prompts and the button reads "Cancel" |
| ShortcutHelper.ShortcutCapture.StopCapture | pyqt_widgets/utility/shortcut_helper.py:474-480 | capturing stops; the label and the button are back to idle |
| ShortcutHelper.ShortcutCapture.Click | pyqt_widgets/utility/shortcut_helper.py:461-479 | a click flips capturing, since the button is reconnected to the other slot each time |
| ShortcutHelper.ShortcutCapture.KeyPress | pyqt_widgets/utility/shortcut_helper.py:482-492 | while capturing, the key text is emitted and capturing stops, and the label ends on its idle text; otherwise nothing is emitted |
| ShortcutHelper.ShortcutCapture.KeyPressIntended | pyqt_widgets/utility/shortcut_helper.py:482-492 | the corrected capture leaves "Captured: " and the key on the label |
| ShortcutHelper.CompactShortcutHelper.constructor | pyqt_widgets/utility/shortcut_helper.py:402-431 | the compact helper starts with no shortcuts and its fixed text |
| ShortcutHelper.CompactShortcutHelper.AddShortcut | pyqt_widgets/utility/shortcut_helper.py:433-441 | the key maps to the description and the other keys are unchanged; the shown text never changes |
| GlobalSearch.AggregateCount | pyqt_widgets/utility/global_search.py:287-305 | the number in "Found N results" is the number of results collected |
| GlobalSearch.AggregateTagged | pyqt_widgets/utility/global_search.py:291-297 | every collected result carries the name of a registered provider |
| GlobalSearch.AggregateAppend | pyqt_widgets/utility/global_search.py:289-297 | the results of two runs of providers are the first run's followed by the second's |
| GlobalSearch.AggregateSplit | pyqt_widgets/utility/global_search.py:289-297 | results come in registration order: splitting the providers anywhere splits the results there |
| GlobalSearch.AggregateSkipsRaised | pyqt_widgets/utility/global_search.py:291-299 | a provider that raises adds nothing, and the providers before and after it still contribute |
| GlobalSearch.AggregateStep | pyqt_widgets/utility/global_search.py:289-297 | one pass of the provider loop appends that provider's tagged results and adds their count |
| GlobalSearch.Contribution | pyqt_widgets/utility/global_search.py:292-297 | a provider that raised adds nothing; otherwise each of its results, in order, tagged with its name |
| GlobalSearch.FileSearch | pyqt_widgets/utility/global_search.py:473-488 | one result, the example file, exactly when the lowercased query contains "file" |
| GlobalSearch.FileSearchIgnoresCase | pyqt_widgets/utility/global_search.py:480 | the file provider gives the same answer for a query and its lowercase |
| GlobalSearch.ContentSearch | pyqt_widgets/utility/global_search.py:491-505 | one result, of type "content" and score 80, exactly when the query is longer than two characters |
| GlobalSearch.ContentSearchNamesQuery | pyqt_widgets/utility/global_search.py:498-500 | the content result's title contains the query |
| GlobalSearch.SampleProvidersCount | pyqt_widgets/utility/global_search.py:473-505 | with both sample providers registered, the count is one per provider whose condition holds |
| GlobalSearch.View | pyqt_widgets/utility/global_search.py:386-433 | a missing title reads "Untitled"; the description and provider labels appear exactly when non-empty; the score exactly when positive |
| GlobalSearch.AggregateShowsProvider | pyqt_widgets/utility/global_search.py:291-418 | every collected result shows its provider's name upper-cased |
| GlobalSearch.SimpleSearch | pyqt_widgets/utility/global_search.py:465-469 | the simple box emits the stripped query, and only a non-empty one |
| GlobalSearch.SimpleSearchSilentIff | pyqt_widgets/utility/global_search.py:465-469 | the simple box stays silent exactly when the input is all whitespace |
| GlobalSearch.FirstWithData | pyqt_widgets/utility/global_search.py:358-362 | the index the removal loop stops at: the first entry whose data is the name, or none |
| GlobalSearch.AddedProviders | pyqt_widgets/utility/global_search.py:346-348 | after registration the name is a provider and no other name is added |
| GlobalSearch.RemovedItems | pyqt_widgets/utility/global_search.py:358-362 | removal drops one type-filter entry exactly when some entry holds the name |
| GlobalSearch.AddRemoveRoundTrip | pyqt_widgets/utility/global_search.py:346-362 | registering a new provider and removing it restores the providers and the type-filter entries |
| GlobalSearch.ReAddRemoveLeavesEntry | pyqt_widgets/utility/global_search.py:346-362 | re-registering a provider lists it twice, so removing it leaves a type-filter entry for a provider that is gone |
| GlobalSearch.GlobalSearchWidget.CurrentFilters | pyqt_widgets/utility/global_search.py:310-317 | the filters are the current type entry's data and the three check boxes |
| GlobalSearch.GlobalSearchWidget.Intended | pyqt_widgets/utility/global_search.py:22-170 | with the type filter connected by `currentIndexChanged`: no providers, the type filter holds only "All", boxes unticked, filters hidden, empty query and results, status "Type to search..." |
| GlobalSearch.NewGlobalSearchWidget | pyqt_widgets/utility/global_search.py:128-132 | as written, the constructor raises AttributeError: `QComboBox` has no `currentDataChanged` signal |
| GlobalSearch.GlobalSearchWidget.ToggleFilters | pyqt_widgets/utility/global_search.py:244-249 | the filter area is shown exactly when the toggle is on |
| GlobalSearch.GlobalSearchWidget.SetPlaceholder | pyqt_widgets/utility/global_search.py:364-367 | the placeholder becomes the given text |
| GlobalSearch.GlobalSearchWidget.SearchTextChanged | pyqt_widgets/utility/global_search.py:251-260 | the query follows the text; text starts the debounce timer, an empty box clears the search and emits search_cleared once |
| GlobalSearch.GlobalSearchWidget.ClearSearch | pyqt_widgets/utility/global_search.py:336-344 | query, results and status are reset; search_cleared is emitted twice when the box held text, once otherwise |
| GlobalSearch.GlobalSearchWidget.ClearSearchIntended | pyqt_widgets/utility/global_search.py:336-344 | the corrected clear resets the same state and emits search_cleared once |
| GlobalSearch.GlobalSearchWidget.Collect | pyqt_widgets/utility/global_search.py:291-297 | one provider's results, tagged, are appended, and its count returned |
| GlobalSearch.GlobalSearchWidget.CollectAll | pyqt_widgets/utility/global_search.py:287-299 | the loop over the providers collects exactly the aggregate and counts it |
| GlobalSearch.GlobalSearchWidget.RunProviders | pyqt_widgets/utility/global_search.py:281-305 | results are the aggregate of all providers and the status reads "Found N results" with N their number |
| GlobalSearch.GlobalSearchWidget.PerformSearch | pyqt_widgets/utility/global_search.py:272-308 | a blank stripped query changes nothing and emits nothing; otherwise the aggregate, the count in the status, and search_performed with the stripped query and the filters |
| GlobalSearch.GlobalSearchWidget.TimerFires | pyqt_widgets/utility/global_search.py:27-308 | the debounce timer runs the pending search once; without one nothing happens |
| GlobalSearch.GlobalSearchWidget.PerformImmediateSearch | pyqt_widgets/utility/global_search.py:267-270 | Enter stops the timer and searches at once |
| GlobalSearch.GlobalSearchWidget.FilterChanged | pyqt_widgets/utility/global_search.py:262-265 | a filter change re-runs the search only when the query is non-empty |
| GlobalSearch.GlobalSearchWidget.SetFlagValue | pyqt_widgets/utility/global_search.py:135-148 | ticking a box sets that box alone |
| GlobalSearch.GlobalSearchWidget.SetFlag | pyqt_widgets/utility/global_search.py:135-265 | a box that changes re-runs a non-blank search; an unchanged box changes nothing |
| GlobalSearch.GlobalSearchWidget.SelectType | pyqt_widgets/utility/global_search.py:130-265 | picking another type entry re-runs a non-blank search; the same entry changes nothing |
| GlobalSearch.GlobalSearchWidget.AddSearchProvider | pyqt_widgets/utility/global_search.py:346-351 | a new name is appended, a known one keeps its place; the type filter gains the title-cased entry either way |
| GlobalSearch.GlobalSearchWidget.RemoveSearchProvider | pyqt_widgets/utility/global_search.py:353-362 | an unknown name changes nothing; a known one leaves the providers and the first type entry for it goes, the current entry moving as the combo box moves it |
| GlobalSearch.GlobalSearchWidget.RemoveItem | pyqt_widgets/utility/global_search.py:360 | the entry is deleted and the current index keeps the current entry, or the one now in its place |
| QuickSettings.ToInt | pyqt_widgets/utility/quick_settings_panel.py:394 | `int(value)` gives back an integer value and raises for `None` |
| QuickSettings.ToIntOfStr | pyqt_widgets/utility/quick_settings_panel.py:394 | `int(str(n)) == n` for every integer `n` |
| QuickSettings.FindText | pyqt_widgets/utility/quick_settings_panel.py:389-391 | `findText` gives the first index holding the text, and -1 exactly when no item holds it |
| QuickSettings.Assign | pyqt_widgets/utility/quick_settings_panel.py:386-394 | assigning a value to a control fails exactly when the control is a spin box or slider and `int(value)` raises |
| QuickSettings.SetOneKeys | pyqt_widgets/utility/quick_settings_panel.py:402-416 | `set_setting` never adds or removes a control, never loses a setting, and keeps every control backed by a setting |
| QuickSettings.SetManyKeys | pyqt_widgets/utility/quick_settings_panel.py:381-396 | `set_settings` never adds or removes a control and keeps every control backed by a setting |
| QuickSettings.SetOneStores | pyqt_widgets/utility/quick_settings_panel.py:402-416 | for a known name that does not raise, the value is recorded as given; other settings are untouched; an unknown name changes nothing and emits nothing |
| QuickSettings.SetManyIgnoresUnknown | pyqt_widgets/utility/quick_settings_panel.py:383-384 | a name without a control keeps its old setting whatever the batch holds |
| QuickSettings.SetManyStep | pyqt_widgets/utility/quick_settings_panel.py:383-396 | `set_settings` on a batch extended by one entry is `set_setting` of that entry after the prefix |
| QuickSettings.SetManyStopsAtRaise | pyqt_widgets/utility/quick_settings_panel.py:394 | once `int(value)` raises, the rest of the batch is not applied |
| QuickSettings.ResetAll | pyqt_widgets/utility/quick_settings_panel.py:369-375 | reset turns every control off, to its first item, or to 0 clamped to its range, keeping names and order |
| QuickSettings.ResetOutcomeFollow | pyqt_widgets/utility/quick_settings_panel.py:367-375 | after a reset a setting holds the control's new reported value exactly when the control moved, and its old value otherwise |
| QuickSettings.ResetChangesReported | pyqt_widgets/utility/quick_settings_panel.py:367-375 | every emission of a reset names a control and carries the value it reports after the reset |
| QuickSettings.ChoiceControl | pyqt_widgets/utility/quick_settings_panel.py:223-224 | a combo box built from the choices has one item per choice |
| QuickSettings.RangeBox | pyqt_widgets/utility/quick_settings_panel.py:265-266 | a spin box or slider keeps `minimum`, raises a smaller `maximum` to it, and holds the default when it lies in range |
| QuickSettings.QuickSettingsPanel.constructor | pyqt_widgets/utility/quick_settings_panel.py:22-29 | a new panel keeps its title and collapsibility, starts expanded and has no settings |
| QuickSettings.QuickSettingsPanel.TogglePanel | pyqt_widgets/utility/quick_settings_panel.py:179-202 | a non-collapsible panel does nothing; a collapsible one flips its expanded state and emits the new state |
| QuickSettings.QuickSettingsPanel.AddToggleSetting | pyqt_widgets/utility/quick_settings_panel.py:204-216 | the default is recorded and the toggle holds it; other names are untouched |
| QuickSettings.QuickSettingsPanel.AddChoiceSetting | pyqt_widgets/utility/quick_settings_panel.py:218-257 | raises exactly when choices are given and the index is out of range; otherwise records `choices[default_index]` (or `None` without choices) |
| QuickSettings.QuickSettingsPanel.AddNumberSetting | pyqt_widgets/utility/quick_settings_panel.py:259-287 | the raw default is recorded while the spin box holds it clamped to its range |
| QuickSettings.QuickSettingsPanel.AddSliderSetting | pyqt_widgets/utility/quick_settings_panel.py:289-317 | the raw default is recorded while the slider holds it clamped to its range |
| QuickSettings.QuickSettingsPanel.OnSettingChanged | pyqt_widgets/utility/quick_settings_panel.py:358-361 | a widget change records its value under its name and emits the pair; nothing else changes |
| QuickSettings.QuickSettingsPanel.GetSetting | pyqt_widgets/utility/quick_settings_panel.py:398-400 | `get_setting` is `None` exactly for an unknown name and otherwise the recorded value |
| QuickSettings.QuickSettingsPanel.ApplySettings | pyqt_widgets/utility/quick_settings_panel.py:363-365 | the emitted copy has exactly the recorded names, each with its recorded value |
| QuickSettings.QuickSettingsPanel.SetSetting | pyqt_widgets/utility/quick_settings_panel.py:402-416 | the new settings, controls and emissions are those of `SetOne` |
| QuickSettings.QuickSettingsPanel.SetSettings | pyqt_widgets/utility/quick_settings_panel.py:381-396 | the batch is applied in order, as `SetMany` describes, stopping at the first raise |
| QuickSettings.QuickSettingsPanel.ResetSettings | pyqt_widgets/utility/quick_settings_panel.py:367-375 | the controls become `ResetAll` of the old ones, and settings and emissions are those of `ResetOutcome` |
| QuickSettings.CompactSettingsPanel.constructor | pyqt_widgets/utility/quick_settings_panel.py:424-427 | a new compact panel has no widgets |
| QuickSettings.CompactSettingsPanel.AddSetting | pyqt_widgets/utility/quick_settings_panel.py:443-446 | the widget is laid out after the others and found under its name; other names are untouched |
| PinnedNote.Saved | pyqt_widgets/utility/pinned_note.py:249-256 | `get_data` reports content, colour, position and creation time, every key present |
| PinnedNote.LoadSaved | pyqt_widgets/utility/pinned_note.py:249-272 | `set_data(get_data())` on any note gives back the content, colour, position and creation time of the note that was saved |
| PinnedNote.LoadedFields | pyqt_widgets/utility/pinned_note.py:258-265 | `set_data` takes content and colour when given and otherwise "" and "#FFE066"; the note moves only when a position is given |
| PinnedNote.Note.constructor | pyqt_widgets/utility/pinned_note.py:24-30 | a new note holds the content, colour and current time it was given, at (0, 0), not grabbed |
| PinnedNote.Note.GetData | pyqt_widgets/utility/pinned_note.py:249-256 | the dictionary a note reports loads back onto a blank note as that note's data |
| PinnedNote.Note.SetData | pyqt_widgets/utility/pinned_note.py:258-272 | the note takes the dictionary's content and colour (empty and #FFE066 when missing), and its position and creation time only when given; the editor's textChanged makes note_changed report the loaded content |
| PinnedNote.Note.SetContent | pyqt_widgets/utility/pinned_note.py:235-238 | only the content changes, and the editor's textChanged makes note_changed report the new content |
| PinnedNote.Note.SetColor | pyqt_widgets/utility/pinned_note.py:244-247 | only the colour changes |
| PinnedNote.Note.OnContentChanged | pyqt_widgets/utility/pinned_note.py:201-204 | the editor's text becomes the content, and the new content is emitted |
| PinnedNote.Note.ChangeColor | pyqt_widgets/utility/pinned_note.py:161-167 | a cancelled dialog changes nothing and emits nothing; a picked colour becomes the colour and is emitted |
| PinnedNote.Note.MousePress | pyqt_widgets/utility/pinned_note.py:206-210 | the left button grabs the note at the pointer's offset from its corner; another button changes nothing |
| PinnedNote.Note.MouseMove | pyqt_widgets/utility/pinned_note.py:212-219 | with only the left button held on a grabbed note, the note moves so the grabbed spot stays under the pointer and the new position is emitted; otherwise nothing moves |
| PinnedNote.Note.MouseRelease | pyqt_widgets/utility/pinned_note.py:221-224 | the note is let go |
| PinnedNote.Note.RequestDuplicate | pyqt_widgets/utility/pinned_note.py:194-199 | the note is handed on for duplication exactly when its parent has `duplicate_note` |
| PinnedNote.Snapshot | pyqt_widgets/utility/pinned_note.py:373-380 | the data of every note, one per note, in list order |
| PinnedNote.PlacementIntended | pyqt_widgets/utility/pinned_note.py:324-332 | a new note goes to the given position, or to the random draw when none is given |
| PinnedNote.PlacementNullPoint | pyqt_widgets/utility/pinned_note.py:329-330 | as written, a given position of (0, 0) is replaced by the random draw, unlike the intended placement |
| PinnedNote.PlacementAgrees | pyqt_widgets/utility/pinned_note.py:329-330 | any other given position is used as given |
| PinnedNote.LoadAllSaved | pyqt_widgets/utility/pinned_note.py:378-399 | reloading the saved data of notes gives back notes with the same data, in order |
| PinnedNote.NoteManager.constructor | pyqt_widgets/utility/pinned_note.py:280-283 | a new manager has no notes |
| PinnedNote.NoteManager.NotesData | pyqt_widgets/utility/pinned_note.py:373-380 | `get_notes_data` holds each note's data, one per note, in order |
| PinnedNote.NoteManager.AddNote | pyqt_widgets/utility/pinned_note.py:324-349 | the new note goes last with the given content and colour, placed as `Placement` says, and the data of all notes is emitted |
| PinnedNote.NoteManager.ClickAddNoteButton | pyqt_widgets/utility/pinned_note.py:294-326 | as written, a click fails with TypeError: the checked flag becomes the content and the new note's editor refuses it; no note is added and nothing is emitted |
| PinnedNote.NoteManager.ClickAddNoteButtonIntended | pyqt_widgets/utility/pinned_note.py:294-346 | as intended, a click adds a last note reading "New note" in #FFE066 at the random draw, and the data of all notes is emitted |
| PinnedNote.NoteManager.RemoveNote | pyqt_widgets/utility/pinned_note.py:351-355 | a note not in the list changes nothing and emits nothing; a listed one is the only note to leave and the data is emitted |
| PinnedNote.NoteManager.DeleteNote | pyqt_widgets/utility/pinned_note.py:226-343 | a deleted note leaves the list and closes; the others stay |
| PinnedNote.NoteManager.DuplicateNote | pyqt_widgets/utility/pinned_note.py:357-364 | the copy goes last with the original's content and colour, placed 20 pixels right and down |
| PinnedNote.NoteManager.MenuDuplicate | pyqt_widgets/utility/pinned_note.py:194-326 | as written, Duplicate from a managed note's menu never reaches the manager |
| PinnedNote.NoteManager.MenuDuplicateIntended | pyqt_widgets/utility/pinned_note.py:194-364 | Duplicate from the menu adds one copy with the original's content and colour |
| PinnedNote.NoteManager.ClearNotes | pyqt_widgets/utility/pinned_note.py:366-371 | every note closes with its data untouched, the list empties, and an empty list is emitted |
| PinnedNote.NoteManager.LoadNotesData | pyqt_widgets/utility/pinned_note.py:382-399 | the old notes close; the new list holds one fresh note per dictionary, in order, each loaded onto a blank note |
| PinnedNote.NoteManager.LoadNotes | pyqt_widgets/utility/pinned_note.py:407-426 | the two sample notes, with their texts, colours and positions, replace the others |
| PinnedNote.SimpleNote.constructor | pyqt_widgets/utility/pinned_note.py:433-436 | the simple note holds the content given |
| PinnedNote.SimpleNote.OnContentChanged | pyqt_widgets/utility/pinned_note.py:465-468 | the editor's text becomes the content and is emitted |
| PinnedNote.SimpleNote.SetContent | pyqt_widgets/utility/pinned_note.py:474-476 | the content is replaced, and the editor's textChanged makes content_changed report it |
| FloatingActionButton.CornerPosition | pyqt_widgets/utility/floating_action_button.py:61-69 | the FAB's corner sits `size + 20` pixels in from the parent's right and bottom edges |
| FloatingActionButton.SpacingRule | pyqt_widgets/utility/floating_action_button.py:195-202 | up, down, left and right fans place each sub-button 60 pixels further out than the previous one, 8 pixels off the axis |
| FloatingActionButton.LinearTargetsDistinct | pyqt_widgets/utility/floating_action_button.py:124-129 | outside the radial fan no two sub-buttons share a target |
| FloatingActionButton.UnknownDirectionIsUp | pyqt_widgets/utility/floating_action_button.py:209-210 | an unknown direction places sub-buttons exactly as "up" does |
| FloatingActionButton.RadialRing | pyqt_widgets/utility/floating_action_button.py:203-208 | the radial fan repeats every eight buttons and keeps each button about 60 pixels from the FAB |
| FloatingActionButton.CollapseUndoesExpand | pyqt_widgets/utility/floating_action_button.py:109-164 | collapsing after an expansion leaves the sub-buttons hidden at the FAB as a collapse alone does, icons and callbacks kept |
| FloatingActionButton.AnimationsMeetAtFab | pyqt_widgets/utility/floating_action_button.py:126-164 | expansion animations start at the FAB and last at least 200 ms; collapse animations end at the FAB and last 150 ms |
| FloatingActionButton.Fab.constructor | pyqt_widgets/utility/floating_action_button.py:14-46 | a new FAB holds its icon text, is collapsed with no sub-buttons, and sits in its parent's corner when it has a parent |
| FloatingActionButton.Fab.Resize | pyqt_widgets/utility/floating_action_button.py:166-170 | a FAB with a parent moves back to the corner; one without stays put |
| FloatingActionButton.Fab.AddSubAction | pyqt_widgets/utility/floating_action_button.py:71-100 | a hidden sub-button at the FAB's position is appended with its icon, tooltip and callback |
| FloatingActionButton.Fab.Expand | pyqt_widgets/utility/floating_action_button.py:109-138 | with no sub-buttons nothing changes; otherwise the FAB shows "✕" and sub-button i is shown at its target after an animation of `200 + 50i` ms from the FAB |
| FloatingActionButton.Fab.FanOut | pyqt_widgets/utility/floating_action_button.py:121-138 | every sub-button moves to its target and shows, and one animation per button is appended in order |
| FloatingActionButton.Fab.Collapse | pyqt_widgets/utility/floating_action_button.py:140-164 | a collapsed FAB changes nothing; an expanded one shows "✚" and every sub-button returns to the FAB and hides |
| FloatingActionButton.Fab.GatherIn | pyqt_widgets/utility/floating_action_button.py:153-164 | every sub-button returns to the FAB hidden, with a 150 ms animation from where it was |
| FloatingActionButton.Fab.Toggle | pyqt_widgets/utility/floating_action_button.py:102-107 | an expanded FAB collapses and any other expands, so two clicks on a FAB with sub-buttons restore its expanded state |
| FloatingActionButton.Fab.ClickSub | pyqt_widgets/utility/floating_action_button.py:92-94 | a sub-button with a callback runs it and collapses an open FAB: the sub-buttons return to it hidden and it shows "✚"; one without a callback changes nothing |
| FloatingActionButton.SpeedDial.constructor | pyqt_widgets/utility/floating_action_button.py:228-230 | a speed dial is a 56-pixel FAB showing "⚡" with no actions |
| FloatingActionButton.SpeedDial.AddAction | pyqt_widgets/utility/floating_action_button.py:232-241 | a sub-button reporting the name is appended, its tooltip the given one or else the name; the action is recorded under its name |
| FloatingActionButton.SpeedDial.GetActions | pyqt_widgets/utility/floating_action_button.py:243-245 | the copy holds exactly the recorded names with their icons and tooltips |
| FloatingActionButton.SpeedDial.ClickSub | pyqt_widgets/utility/floating_action_button.py:140-235 | a click emits the button's action name and collapses an open dial: every sub-button returns to the FAB and hides, and the FAB shows "✚" instead of its "⚡"; a button without a callback changes nothing |
| FloatingActionButton.SubFor | pyqt_widgets/utility/floating_action_button.py:344-349 | an action without an icon shows "•"; its callback is kept; the button starts hidden at the FAB |
| FloatingActionButton.SubsFor | pyqt_widgets/utility/floating_action_button.py:344-349 | one sub-button per action of the context, in order |
| FloatingActionButton.ContextualFab.constructor | pyqt_widgets/utility/floating_action_button.py:310-313 | a contextual FAB starts in context "default" with no contexts |
| FloatingActionButton.ContextualFab.AddContext | pyqt_widgets/utility/floating_action_button.py:315-320 | the context is recorded under its name, replacing an earlier one |
| FloatingActionButton.ContextualFab.SetContext | pyqt_widgets/utility/floating_action_button.py:322-351 | an unknown context changes nothing and emits nothing; a known one collapses the FAB, shows the context's icon, replaces the sub-buttons by the context's actions and emits the name |
| FloatingActionButton.ContextualFab.Show | pyqt_widgets/utility/floating_action_button.py:331-349 | the old sub-buttons are dropped and the context's icon and actions take their place |
| FloatingActionButton.ContextualFab.CurrentContext | pyqt_widgets/utility/floating_action_button.py:353-355 | the current context name |
| UserAvatar.Initials | pyqt_widgets/user/user_avatar.py:125-136 | the initials are one or two characters long |
| UserAvatar.InitialsSpec | pyqt_widgets/user/user_avatar.py:125-136 | a blank name gives "?"; otherwise the first initial is the first visible character uppercased, there are two initials exactly when there are two or more words, and none is a lowercase letter |
| UserAvatar.InitialsFirstLast | pyqt_widgets/user/user_avatar.py:130-132 | a name of several words takes the first letters of its first and last words, whatever lies between |
| UserAvatar.StatusColor | pyqt_widgets/user/user_avatar.py:159-166 | an unknown status uses the offline colour, and the three known ones do not |
| UserAvatar.DotSize | pyqt_widgets/user/user_avatar.py:169 | the dot is a sixth of the avatar's size, but at least 8 pixels |
| UserAvatar.StatusDot | pyqt_widgets/user/user_avatar.py:166-183 | the dot has the status colour and sits flush with the avatar's bottom-right corner |
| UserAvatar.DotInside | pyqt_widgets/user/user_avatar.py:169-183 | on an avatar of at least 8 pixels the dot lies inside the avatar |
| UserAvatar.FaceFor | pyqt_widgets/user/user_avatar.py:42-62 | the avatar shows the image exactly when a path is set and it loads, and otherwise the initials |
| UserAvatar.Avatar.constructor | pyqt_widgets/user/user_avatar.py:16-23 | a new avatar keeps its name, image, size and status, is not clickable, and has a dot exactly when the status is truthy |
| UserAvatar.Avatar.Update | pyqt_widgets/user/user_avatar.py:42-51 | the face is redrawn and, with a truthy status, one more dot is added on top |
| UserAvatar.Avatar.SetName | pyqt_widgets/user/user_avatar.py:186-189 | the name changes and the avatar is redrawn |
| UserAvatar.Avatar.SetImage | pyqt_widgets/user/user_avatar.py:191-194 | the image path changes and the avatar is redrawn |
| UserAvatar.Avatar.SetStatus | pyqt_widgets/user/user_avatar.py:196-199 | as written, a status adds its dot over the old ones, and an empty status leaves every old dot in place |
| UserAvatar.Avatar.SetStatusIntended | pyqt_widgets/user/user_avatar.py:196-199 | the avatar carries exactly the dot of its current status, or none |
| UserAvatar.Avatar.SetSize | pyqt_widgets/user/user_avatar.py:201-206 | the size changes and any new dot is sized for it |
| UserAvatar.Avatar.SetClickable | pyqt_widgets/user/user_avatar.py:208-214 | clickability is set |
| UserAvatar.Avatar.MousePress | pyqt_widgets/user/user_avatar.py:216-220 | `clicked` is emitted exactly for a left press on a clickable avatar |
| UserAvatar.EditableAvatar.constructor | pyqt_widgets/user/user_avatar.py:313-317 | an editable avatar starts editable and clickable, without a status |
| UserAvatar.EditableAvatar.Edit | pyqt_widgets/user/user_avatar.py:319-335 | an editable avatar takes a picked file as its image and emits it; a cancelled dialog or a locked avatar changes nothing |
| UserAvatar.EditableAvatar.Click | pyqt_widgets/user/user_avatar.py:216-317 | a new image is emitted exactly when a left click reaches a clickable, editable avatar and a file is picked |
| UserAvatar.EditableAvatar.SetEditable | pyqt_widgets/user/user_avatar.py:337-362 | clickability follows editability, and turning it on draws an edit marker 16 pixels from the top-right |
| UserAvatar.Step | pyqt_widgets/user/user_avatar.py:256-262 | avatars of a group are one size less a third apart, never more than one size |
| UserAvatar.VisibleInside | pyqt_widgets/user/user_avatar.py:241-262 | every visible avatar lies within the group's width |
| UserAvatar.CountClipped | pyqt_widgets/user/user_avatar.py:241-284 | as written, only the left third of the count avatar lies within the group |
| UserAvatar.GroupWidthIntended | pyqt_widgets/user/user_avatar.py:241-246 | the intended width ends exactly where the count avatar ends |
| UserAvatar.CountInsideIntended | pyqt_widgets/user/user_avatar.py:241-284 | with the intended width every avatar, the count included, lies within the group |
| UserAvatar.PlacedSpec | pyqt_widgets/user/user_avatar.py:254-268 | exactly the first `max_visible` avatars show, in order, and placing again changes nothing |
| UserAvatar.AvatarGroup.constructor | pyqt_widgets/user/user_avatar.py:234-239 | a new group has no avatars |
| UserAvatar.AvatarGroup.Width | pyqt_widgets/user/user_avatar.py:241-246 | the group's width stops short of the count avatar's right edge |
| UserAvatar.AvatarGroup.AddAvatar | pyqt_widgets/user/user_avatar.py:248-252 | the avatar goes last, the avatars are placed again, and a "+n" count avatar for the overflow is added exactly when there are more than `max_visible` |
| UserAvatar.AvatarGroup.UpdatePositions | pyqt_widgets/user/user_avatar.py:254-272 | the avatars become `Placed` and an overflow adds a "+n" count avatar one step past the last visible one |
| UserAvatar.AvatarGroup.ClearAvatars | pyqt_widgets/user/user_avatar.py:297-301 | as written, the avatars go and every count avatar stays |
| UserAvatar.AvatarGroup.ClearAvatarsIntended | pyqt_widgets/user/user_avatar.py:297-301 | the avatars and the count avatars both go |
| UserAvatar.AvatarGroup.Count | pyqt_widgets/user/user_avatar.py:303-305 | the number of avatars added since the last clear |
| Common.LabelFor | pyqt_widgets/user/user_list_item.py:57-70 | a role or e-mail line exists exactly when the value given at construction is non-empty, and then shows it |
| Common.Relabel | pyqt_widgets/user/user_list_item.py:140-150 | an update changes a line that exists and never creates a missing one |
| Common.AddThenRemoveAction | pyqt_widgets/user/user_list_item.py:94-118 | adding an action under a fresh name and removing that name gives back the list unchanged |
| Common.RemoveActionKeepsOthers | pyqt_widgets/user/user_list_item.py:108-114 | removal deletes the first button holding the name and keeps every other button, in order |
| UserListItem.UserItem.constructor | pyqt_widgets/user/user_list_item.py:19-79 | a row with no actions and the strip hidden, not clickable, a 40-pixel avatar for the same user and status |
| UserListItem.UserItem.AddAction | pyqt_widgets/user/user_list_item.py:94-106 | the button goes last under its given or default name, and the strip is shown |
| UserListItem.UserItem.RemoveAction | pyqt_widgets/user/user_list_item.py:108-118 | the first button of that name leaves, an absent name changes nothing, and the strip is shown exactly while buttons remain |
| UserListItem.UserItem.ClickAction | pyqt_widgets/user/user_list_item.py:99 | a button reports the name it was added under |
| UserListItem.UserItem.SetClickable | pyqt_widgets/user/user_list_item.py:120-126 | the row becomes clickable or not |
| UserListItem.UserItem.MousePress | pyqt_widgets/user/user_list_item.py:128-132 | `clicked` fires exactly for a left press on a clickable row |
| UserListItem.UserItem.SetName | pyqt_widgets/user/user_list_item.py:134-138 | the name, its label and the avatar's name all change together |
| UserListItem.UserItem.SetRole | pyqt_widgets/user/user_list_item.py:140-144 | the role changes; its line follows only if the row was built with a role |
| UserListItem.UserItem.SetEmail | pyqt_widgets/user/user_list_item.py:146-150 | the e-mail changes; its line follows only if the row was built with one |
| UserListItem.UserItem.SetStatus | pyqt_widgets/user/user_list_item.py:152-155 | the row and its avatar take the status, and the avatar adds its dot |
| UserListItem.UserItem.SetAvatar | pyqt_widgets/user/user_list_item.py:157-160 | the row and its avatar take the picture path |
| UserListItem.CompactItem.constructor | pyqt_widgets/user/user_list_item.py:178-200 | a row with no e-mail and no status whose avatar is resized to 24 pixels, and whose name label is off screen: it is detached and put into a compact layout Qt refuses, because the row still has its first layout |
| UserListItem.CompactItem.Intended | pyqt_widgets/user/user_list_item.py:178-200 | the same row with the compact layout installed, so the name label is on screen |
| UserListItem.CompactItem.ShownName | pyqt_widgets/user/user_list_item.py:195-197 | the name on screen is the user's name exactly when the name label sits in an installed layout |
| UserListItem.CompactNameHidden | pyqt_widgets/user/user_list_item.py:184-197 | as written, a compact row for "Ada" shows no name |
| UserListItem.CompactNameShownIntended | pyqt_widgets/user/user_list_item.py:184-197 | as intended, the compact row for "Ada" shows "Ada" |
| UserListItem.TeamLabel | pyqt_widgets/user/user_list_item.py:212-221 | a team line exists exactly for a non-empty team and reads "Team: " and the team |
| UserListItem.TeamMember.constructor | pyqt_widgets/user/user_list_item.py:206-210 | a row with no e-mail and the team line of its team |
| UserListItem.TeamMember.SetTeam | pyqt_widgets/user/user_list_item.py:223-226 | as written, the team changes and the team line keeps its old caption |
| UserListItem.TeamMember.SetTeamIntended | pyqt_widgets/user/user_list_item.py:223-226 | a team line shown since construction takes the new team's caption |
| UserListItem.StaleTeamLine | pyqt_widgets/user/user_list_item.py:212-226 | a member built with team "A" and set to team "B" still shows "Team: A" |
| UserListItem.FreshTeamLine | pyqt_widgets/user/user_list_item.py:212-226 | with the intended update, the line matches the new team |
| UserListItem.Contact.constructor | pyqt_widgets/user/user_list_item.py:236-255 | a phone line only for a non-empty phone, and the buttons Call and Message, shown, in that order |
| UserListItem.ContactActionNames | pyqt_widgets/user/user_list_item.py:253-255 | a contact's buttons report "call" and "message", two distinct names |
| UserListItem.Contact.SetPhone | pyqt_widgets/user/user_list_item.py:257-259 | the number changes and the phone line does not |
| UserListItem.Selectable.constructor | pyqt_widgets/user/user_list_item.py:271-284 | a row that starts unselected, check box clear |
| UserListItem.Selectable.SetSelected | pyqt_widgets/user/user_list_item.py:286-316 | the row takes the state; `selection_changed` fires, with the state, exactly when the state changes, and the highlight follows |
| UserListItem.Selectable.ClickCheckbox | pyqt_widgets/user/user_list_item.py:286-316 | a click flips the selection and always reports the new state |
| UserListItem.UserNames | pyqt_widgets/user/user_list_item.py:380-382 | one name per row, in list order |
| UserListItem.UserNamesDeleteAt | pyqt_widgets/user/user_list_item.py:366-372 | deleting a row deletes its name from the same position |
| UserListItem.WithoutUser | pyqt_widgets/user/user_list_item.py:366-372 | the first name equal to the given one leaves the name list, and an absent name changes nothing |
| UserListItem.AddThenRemoveUser | pyqt_widgets/user/user_list_item.py:357-372 | adding a row whose name no other row shows and removing that name gives back the list |
| UserListItem.UserList.constructor | pyqt_widgets/user/user_list_item.py:329-332 | an empty list |
| UserListItem.UserList.GetUsers | pyqt_widgets/user/user_list_item.py:380-382 | the names the rows show now, in order |
| UserListItem.UserList.AddUser | pyqt_widgets/user/user_list_item.py:357-364 | the row goes last, its name last in `get_users`, and its signals are connected once more |
| UserListItem.UserList.RemoveUser | pyqt_widgets/user/user_list_item.py:366-372 | the loop takes out the first row showing the name and keeps the others, in order |
| UserListItem.UserList.ClearUsers | pyqt_widgets/user/user_list_item.py:374-378 | no rows and no names |
| UserListItem.UserList.FindUser | pyqt_widgets/user/user_list_item.py:384-388 | the first row showing the name, or nothing exactly when no row shows it |
| UserListItem.UserList.ClickUser | pyqt_widgets/user/user_list_item.py:362 | a left press on a clickable row emits its present name once per `add_user` of that row, and nothing for a row never added |
| UserListItem.UserList.ClickAction | pyqt_widgets/user/user_list_item.py:363 | an action click emits the row's present name and the action's name, once per `add_user` of that row |
| ProfileHeader.BannerFor | pyqt_widgets/user/profile_header.py:55-70 | the banner shows the given picture exactly when a path was given, and the theme gradient otherwise |
| ProfileHeader.ValueText | pyqt_widgets/user/profile_header.py:214-217 | a text statistic reads as itself and a count as its decimal digits |
| ProfileHeader.StatsSection | pyqt_widgets/user/profile_header.py:194-206 | one widget per statistic, in the dictionary's order, each with the value's text above the name |
| ProfileHeader.Header.constructor | pyqt_widgets/user/profile_header.py:21-178 | no actions and no statistics; title, bio and location lines only for non-empty values; full banner 200 high with its picture or the gradient, compact banner 100 high with the gradient; avatar 80 or 60 across, clickable, showing the header's name and picture |
| ProfileHeader.Header.AddAction | pyqt_widgets/user/profile_header.py:235-244 | the button goes last, under the given name or the text's lower-cased, underscored form |
| ProfileHeader.Header.RemoveAction | pyqt_widgets/user/profile_header.py:246-252 | the first button of that name goes and the others keep their order; an absent name changes nothing |
| ProfileHeader.Header.ClickAction | pyqt_widgets/user/profile_header.py:241 | a click emits the name the clicked button was added under |
| ProfileHeader.Header.AddStat | pyqt_widgets/user/profile_header.py:254-261 | the dictionary gets the entry, new at the end or replaced in place; the section on screen stays as built |
| ProfileHeader.Header.AddStatIntended | pyqt_widgets/user/profile_header.py:254-261 | as `add_stat`, and the section on screen then shows every statistic in order |
| ProfileHeader.Header.GetStats | pyqt_widgets/user/profile_header.py:299-301 | the same keys in the same order, each with the same value |
| ProfileHeader.Header.SetName | pyqt_widgets/user/profile_header.py:263-267 | the name and its label change and the avatar shows the new name's face |
| ProfileHeader.Header.SetTitle | pyqt_widgets/user/profile_header.py:269-273 | the title changes; its line shows it only if the header was built with a title line |
| ProfileHeader.Header.SetBio | pyqt_widgets/user/profile_header.py:275-279 | the bio changes; its line shows it only if the header was built with a bio line |
| ProfileHeader.Header.SetLocation | pyqt_widgets/user/profile_header.py:281-283 | only the stored location changes |
| ProfileHeader.Header.SetAvatar | pyqt_widgets/user/profile_header.py:285-288 | the header and its avatar take the new picture path, and the avatar's face follows it |
| ProfileHeader.Header.SetBanner | pyqt_widgets/user/profile_header.py:290-293 | only the stored banner path changes |
| ProfileHeader.Header.BannerPress | pyqt_widgets/user/profile_header.py:79-80 | `banner_clicked` is emitted exactly for a left press on a full-layout banner |
| ProfileHeader.Header.AvatarPress | pyqt_widgets/user/profile_header.py:124-126 | `avatar_clicked` is emitted exactly for a left press |
| ProfileHeader.CompactHeader.constructor | pyqt_widgets/user/profile_header.py:304-379 | no bio and no location line, a gradient banner 100 high that takes no press, and a 60-wide avatar |
| ProfileHeader.BusinessStats | pyqt_widgets/user/profile_header.py:401-403 | a "Founded" statistic exactly when a founding date is given, and nothing else |
| ProfileHeader.BusinessHeader.constructor | pyqt_widgets/user/profile_header.py:382-406 | the industry is the title, the founding date the only statistic when given, and "website" then "contact" the buttons |
| ProfileHeader.BusinessHeader.AddBusinessInfo | pyqt_widgets/user/profile_header.py:394-406 | the title becomes the industry when there is one, "Founded" is put when a date is given, and the two buttons are appended |
| ProfileHeader.BusinessHeader.SetIndustry | pyqt_widgets/user/profile_header.py:408-411 | the industry and the title change together |
| ProfileHeader.BusinessHeader.SetWebsite | pyqt_widgets/user/profile_header.py:413-415 | only the stored website changes |
| ProfileHeader.BusinessHeader.SetFounded | pyqt_widgets/user/profile_header.py:417-419 | only the stored date changes; the "Founded" statistic keeps its value |
| ProfileHeader.Handle | pyqt_widgets/user/profile_header.py:430-433 | an empty username stays empty, one starting with "@" is kept, and any other gets "@" in front |
| ProfileHeader.HandleRoundTrip | pyqt_widgets/user/profile_header.py:447-452 | a handle is its own handle, the username reads back from a handle that added "@", and the handle equals the username exactly when it is empty or starts with "@" |
| ProfileHeader.SocialStats | pyqt_widgets/user/profile_header.py:436-445 | "Posts", "Followers" and "Following", distinct and in that order, each holding its count |
| ProfileHeader.SocialStatsFromEmpty | pyqt_widgets/user/profile_header.py:438-440 | putting the three counts into no statistics builds them in that order |
| ProfileHeader.SocialStatsUpdate | pyqt_widgets/user/profile_header.py:454-460 | setting the three counts again replaces each in its place |
| ProfileHeader.PutThreeNew | pyqt_widgets/user/profile_header.py:438-440 | three distinct new keys put into an empty dictionary stand in insertion order |
| ProfileHeader.PutThreeAgain | pyqt_widgets/user/profile_header.py:457-459 | putting each of three distinct keys again replaces its value and keeps the order |
| ProfileHeader.SocialHeader.constructor | pyqt_widgets/user/profile_header.py:422-445 | the handle is the title, the three counts start at zero and none of them is on screen, and "follow" then "message" are the buttons |
| ProfileHeader.SocialHeader.AddSocialFeatures | pyqt_widgets/user/profile_header.py:436-445 | on a header without statistics the three counts start at zero; the two buttons are appended |
| ProfileHeader.SocialHeader.SetUsername | pyqt_widgets/user/profile_header.py:447-452 | the username is kept and the title becomes its handle |
| ProfileHeader.SocialHeader.SetSocialStats | pyqt_widgets/user/profile_header.py:454-460 | each of the three counts is put in its place and reads back as given |
| ProfileHeader.SocialStatsHidden | pyqt_widgets/user/profile_header.py:84-114 | a new social header holds three statistics and shows none of them |
| ProfileHeader.SocialStatsShownIntended | pyqt_widgets/user/profile_header.py:254-261 | with the intended `add_stat`, all three are on screen |
| ThemeManager.BuiltinThemes | pyqt_widgets/base/theme_manager.py:18-93 | exactly the two themes "light" and "dark" |
| ThemeManager.BuiltinTokensAgree | pyqt_widgets/base/theme_manager.py:20-78 | the light and dark themes define the same fourteen colour tokens, which include every token the stylesheet reads |
| ThemeManager.Line | pyqt_widgets/base/theme_manager.py:125-160 | a template line is its indentation, its text and a line break |
| ThemeManager.Stylesheet | pyqt_widgets/base/theme_manager.py:121-160 | the stylesheet text, laid out as the template is, contains the theme's background colour |
| ThemeManager.StylesheetHead | pyqt_widgets/base/theme_manager.py:125-127 | the stylesheet starts with a line break |
| ThemeManager.StylesheetDependsOnlyOnItsTokens | pyqt_widgets/base/theme_manager.py:121-160 | two colour tables that agree on the seven tokens the template reads give the same stylesheet |
| ThemeManager.Manager.constructor | pyqt_widgets/base/theme_manager.py:15-93 | "light" is current, and the built-in themes are registered |
| ThemeManager.Manager.SetTheme | pyqt_widgets/base/theme_manager.py:95-99 | a registered name becomes current and `theme_changed` fires exactly then; any other name changes nothing |
| ThemeManager.Manager.CurrentColors | pyqt_widgets/base/theme_manager.py:123 | the current theme's colours cover every colour token |
| ThemeManager.Manager.GetColor | pyqt_widgets/base/theme_manager.py:105-107 | the current theme's colour for a known token, and "#000000" for any other |
| ThemeManager.Manager.GetSpacing | pyqt_widgets/base/theme_manager.py:113-115 | the current theme's spacing for a known size, and 8 for any other |
| ThemeManager.Manager.GetBorderRadius | pyqt_widgets/base/theme_manager.py:117-119 | the current theme's radius for a known size, and 4 for any other |
| ThemeManager.Manager.GetStylesheet | pyqt_widgets/base/theme_manager.py:121-160 | the current theme's stylesheet, which carries its background colour |
| BaseCard.Card.constructor | pyqt_widgets/base/base_card.py:19-57 | hoverable, not selectable, not selected, with empty sections and the header and footer hidden |
| BaseCard.Card.SetHeader | pyqt_widgets/base/base_card.py:73-80 | the header holds exactly the new widget and is shown |
| BaseCard.Card.SetBody | pyqt_widgets/base/base_card.py:82-88 | the body holds exactly the new widget |
| BaseCard.Card.SetFooter | pyqt_widgets/base/base_card.py:90-97 | the footer holds exactly the new widget and is shown |
| BaseCard.Card.AddHeaderAction | pyqt_widgets/base/base_card.py:99-103 | the button goes after the header's widgets and the header is shown |
| BaseCard.Card.AddFooterAction | pyqt_widgets/base/base_card.py:105-109 | the button goes after the footer's widgets and the footer is shown |
| BaseCard.Card.SetHoverable | pyqt_widgets/base/base_card.py:111-113 | the hover flag takes the value |
| BaseCard.Card.SetSelectable | pyqt_widgets/base/base_card.py:115-117 | the selectable flag takes the value |
| BaseCard.Card.SetSelected | pyqt_widgets/base/base_card.py:119-123 | the selection takes the value on a selectable card and is unchanged otherwise |
| BaseCard.Card.Enter | pyqt_widgets/base/base_card.py:143-149 | `hover_entered` fires exactly on a hoverable card |
| BaseCard.Card.Leave | pyqt_widgets/base/base_card.py:151-155 | `hover_left` fires exactly on a hoverable card |
| BaseCard.Card.MousePress | pyqt_widgets/base/base_card.py:157-163 | a left press emits `clicked` and flips the selection of a selectable card; other buttons change nothing |
| BaseCard.Card.ShowFooter | pyqt_widgets/cards/profile_card.py:172-173 | the footer is shown |
| BaseCard.Card.HideFooter | pyqt_widgets/cards/profile_card.py:187 | the footer is hidden |
| BaseButton.Color | build/lib/pyqt_widgets/base/base_button.py:60-103 | the theme's colour for a known token and "#000000" for any other |
| BaseButton.VariantColors | build/lib/pyqt_widgets/base/base_button.py:57-103 | primary is the primary colour on white text, destructive the danger colour with hover #c82333, secondary and ghost are transparent, and any other variant gets the default set |
| BaseButton.SizeProperties | build/lib/pyqt_widgets/base/base_button.py:105-127 | small is 60x24 at 8 points, large 120x44 at 11 points, and any other size 80x32 at 9 points |
| BaseButton.IconButtonSide | build/lib/pyqt_widgets/base/base_button.py:197-201 | an icon button is a square whose side is its size's minimum height: 24, 32 or 44 |
| BaseButton.IconButtonRadius | build/lib/pyqt_widgets/base/base_button.py:202-207 | the corner radius is half the side, rounded down |
| BaseButton.Button.Base | build/lib/pyqt_widgets/base/base_button.py:15-21 | the button has the given text, variant and size, is enabled and not loading |
| BaseButton.Button.Toggle | build/lib/pyqt_widgets/base/base_button.py:215-218 | a toggle button is a medium secondary button, unchecked |
| BaseButton.Button.SetVariant | build/lib/pyqt_widgets/base/base_button.py:129-132 | the variant takes the value |
| BaseButton.Button.SetSize | build/lib/pyqt_widgets/base/base_button.py:134-137 | the size takes the value |
| BaseButton.Button.SetLoading | build/lib/pyqt_widgets/base/base_button.py:139-146 | loading shows "Loading..." and disables the button; leaving it re-enables the button and keeps the text shown |
| BaseButton.Button.UpdateAppearance | build/lib/pyqt_widgets/base/base_button.py:235-240 | a checked toggle button is primary and an unchecked one secondary |
| BaseButton.Button.HandleToggle | build/lib/pyqt_widgets/base/base_button.py:220-224 | a click flips the state, the appearance follows, and `toggled` carries the new state |
| BaseButton.Button.SetChecked | build/lib/pyqt_widgets/base/base_button.py:226-229 | the state takes the value and the appearance follows, without `toggled` |
| BaseButton.ButtonGroup.constructor | build/lib/pyqt_widgets/base/base_button.py:246-248 | no buttons and no active button |
| BaseButton.ButtonGroup.AddButton | build/lib/pyqt_widgets/base/base_button.py:250-253 | the button goes last |
| BaseButton.ButtonGroup.OnToggled | build/lib/pyqt_widgets/base/base_button.py:255-265 | turning a button on unchecks every other member, leaves it checked and makes it active; turning the active button off clears the active button; nothing else changes state |
| BaseButton.ButtonGroup.ClickMember | build/lib/pyqt_widgets/base/base_button.py:250-265 | a click on a member flips it, at most one member stays checked, and a member turned on becomes active |
| BasePopup.CenteredPosition | build/lib/pyqt_widgets/base/base_popup.py:59-71 | the popup's offset from the parent's corner, or from the screen's origin, is half the difference of the sizes, rounded down |
| BasePopup.ToastPosition | build/lib/pyqt_widgets/base/base_popup.py:139-159 | the four corners keep 20 pixels from the screen's edges, and any other position is centred on the screen |
| BasePopup.ToastOnScreen | build/lib/pyqt_widgets/base/base_popup.py:139-159 | on a screen with room for a 300x60 toast and its margins, the toast lies inside the screen wherever it is placed |
| BasePopup.Popup.constructor | build/lib/pyqt_widgets/base/base_popup.py:17-41 | no auto-close timer, not shown, modal as given, drawn fully (the drop shadow) |
| BasePopup.Popup.ShowAtPosition | build/lib/pyqt_widgets/base/base_popup.py:53-57 | as written: shown at the point but fully transparent (fade_in's start value), so not seen |
| BasePopup.Popup.ShowAtPositionIntended | build/lib/pyqt_widgets/base/base_popup.py:53-57 | intended: shown at the point at full opacity, so seen |
| BasePopup.Popup.ShowCentered | build/lib/pyqt_widgets/base/base_popup.py:59-71 | as written: shown, transparent, at the centred position |
| BasePopup.Popup.ShowCenteredIntended | build/lib/pyqt_widgets/base/base_popup.py:59-71 | with the intended fade-in: seen at the centred position |
| BasePopup.Popup.AutoClose | build/lib/pyqt_widgets/base/base_popup.py:79-87 | a pending timer is stopped exactly when there is one, and the new delay is the only pending timer |
| BasePopup.Popup.KeyPress | build/lib/pyqt_widgets/base/base_popup.py:98-102 | Escape, and only Escape, asks the popup to close |
| BasePopup.Popup.MousePress | build/lib/pyqt_widgets/base/base_popup.py:104-112 | a left press outside the content of a modal popup, and only that, asks it to close |
| BasePopup.Toast.constructor | build/lib/pyqt_widgets/base/base_popup.py:118-137 | a non-modal popup whose auto-close timer is pending with the given duration |
| BasePopup.Toast.ShowToast | build/lib/pyqt_widgets/base/base_popup.py:139-159 | as written: shown, transparent, at its position for the screen |
| BasePopup.Toast.ShowToastIntended | build/lib/pyqt_widgets/base/base_popup.py:139-159 | with the intended fade-in: seen at its position for the screen |
| BasePopup.PopupNeverSeenThenStuck | build/lib/pyqt_widgets/base/base_popup.py:53-96 | as written a shown popup is not seen, and closing it makes it seen without closing it |
| BasePopup.PopupSeenThenClosedIntended | build/lib/pyqt_widgets/base/base_popup.py:53-96 | with the intended fades a popup is seen once shown, and closing it hides it and emits closed |
| BasePopup.ContextMenu.constructor | build/lib/pyqt_widgets/base/base_popup.py:165-168 | no actions and no entries |
| BasePopup.ContextMenu.AddAction | build/lib/pyqt_widgets/base/base_popup.py:179-205 | the action goes last in both the action list and the layout |
| BasePopup.ContextMenu.AddSeparator | build/lib/pyqt_widgets/base/base_popup.py:207-213 | the layout gets a separator and the action list is unchanged |
| SelectableCard.IndicatorText | pyqt_widgets/cards/selectable_card.py:97-157 | the indicator shows a tick exactly when the card is selected, and nothing otherwise |
| SelectableCard.FilterSubtitle | pyqt_widgets/cards/selectable_card.py:225 | "N items" for a positive count and "No items" otherwise |
| SelectableCard.FilterSubtitleDeterminesCount | pyqt_widgets/cards/selectable_card.py:228-232 | two positive counts with the same subtitle are equal, and no positive count reads "No items" |
| SelectableCard.SelectableCardWidget.constructor | pyqt_widgets/cards/selectable_card.py:17-24 | title, subtitle and mode as given, selectable as given, not selected, checkbox clear, indicator in step |
| SelectableCard.SelectableCardWidget.Option | pyqt_widgets/cards/selectable_card.py:197-199 | an option card is a selectable single-select card with the description as subtitle |
| SelectableCard.SelectableCardWidget.MultiSelect | pyqt_widgets/cards/selectable_card.py:213-214 | a multi-select card is selectable and carries a clear checkbox |
| SelectableCard.SelectableCardWidget.SetSelected | pyqt_widgets/cards/selectable_card.py:160-171 | the card takes the value only when selectable, but the checkbox follows the requested value and `selection_changed` carries it in every case; the indicator follows the card |
| SelectableCard.SelectableCardWidget.OnCheckboxChanged | pyqt_widgets/cards/selectable_card.py:92-95 | ticking or clearing the checkbox selects or deselects a selectable card, and the checkbox keeps the user's state |
| SelectableCard.SelectableCardWidget.MousePress | pyqt_widgets/base/base_card.py:157-163 | a left press flips a selectable card through the overriding setter and reports the new state; other presses change nothing |
| SelectableCard.SelectableCardWidget.SetTitle | pyqt_widgets/cards/selectable_card.py:173-177 | the title takes the value |
| SelectableCard.SelectableCardWidget.SetSubtitle | pyqt_widgets/cards/selectable_card.py:179-183 | the subtitle takes the value |
| SelectableCard.FilterCard.constructor | pyqt_widgets/cards/selectable_card.py:220-226 | a multi-select card titled with the filter name whose subtitle reads the count |
| SelectableCard.FilterCard.SetCount | pyqt_widgets/cards/selectable_card.py:228-232 | the count changes and the subtitle reads it |
| ExpandableCard.ArrowText | pyqt_widgets/cards/expandable_card.py:64-73 | "▼" exactly when expanded and "▶" exactly when collapsed |
| ExpandableCard.ExpandableCardWidget.constructor | pyqt_widgets/cards/expandable_card.py:18-25 | the title and state as given, no content, the content shown exactly when expanded and the arrow in step |
| ExpandableCard.ExpandableCardWidget.Accordion | pyqt_widgets/cards/expandable_card.py:209-216 | a collapsed card whose content is a label with the text when the text is non-empty, and empty otherwise |
| ExpandableCard.ExpandableCardWidget.Collapsible | pyqt_widgets/cards/expandable_card.py:229-231 | an expanded card with no content |
| ExpandableCard.ExpandableCardWidget.ToggleExpansion | pyqt_widgets/cards/expandable_card.py:86-96 | the state flips, the arrow and the content's visibility follow, and `expanded` carries the new state |
| ExpandableCard.ExpandableCardWidget.SetExpanded | pyqt_widgets/cards/expandable_card.py:174-195 | the current state changes nothing and emits nothing; any other state is taken, with or without animation, and emitted |
| ExpandableCard.ExpandableCardWidget.SetContent | pyqt_widgets/cards/expandable_card.py:147-162 | the content is exactly the new widget, shown exactly when expanded |
| ExpandableCard.ExpandableCardWidget.SetContentText | pyqt_widgets/cards/expandable_card.py:218-223 | a label with the text, even an empty one, becomes the whole content |
| ExpandableCard.ExpandableCardWidget.AddContentWidget | pyqt_widgets/cards/expandable_card.py:164-166 | the widget goes after the content |
| ExpandableCard.ExpandableCardWidget.SetTitle | pyqt_widgets/cards/expandable_card.py:168-172 | the title takes the value |
| ExpandableCard.StepLabel | pyqt_widgets/cards/expandable_card.py:263-270 | a tick once completed and the step number otherwise, and the number never reads as a tick |
| ExpandableCard.StepColorToken | pyqt_widgets/cards/expandable_card.py:269-272 | the success colour once completed and the primary colour otherwise |
| ExpandableCard.StepCard.constructor | pyqt_widgets/cards/expandable_card.py:255-259 | a collapsed card with one badge for the step's state |
| ExpandableCard.StepCard.SetCompleted | pyqt_widgets/cards/expandable_card.py:289-292 | the state changes and a new badge for it is inserted in front of the badges already there |
| HoverActionCard.ProjectStatusToken | pyqt_widgets/cards/hover_action_card.py:271-276 | exactly the four statuses active, paused, completed and cancelled have a colour token |
| HoverActionCard.ProjectStatusColor | pyqt_widgets/cards/hover_action_card.py:271-286 | the chip shows the status's colour, and the theme's light colour for any other status |
| HoverActionCard.HoverActionCardWidget.constructor | pyqt_widgets/cards/hover_action_card.py:19-27 | a card with the given title and subtitle, no actions and a hidden action bar |
| HoverActionCard.HoverActionCardWidget.AddAction | pyqt_widgets/cards/hover_action_card.py:65-77 | one button is appended, named by the given name or by its lowercased text with spaces as underscores |
| HoverActionCard.HoverActionCardWidget.RemoveAction | pyqt_widgets/cards/hover_action_card.py:79-85 | only the first action of that name leaves, the others keep their order, an unknown name changes nothing |
| HoverActionCard.HoverActionCardWidget.ClearActions | pyqt_widgets/cards/hover_action_card.py:87-91 | no action is left |
| HoverActionCard.HoverActionCardWidget.GetActions | pyqt_widgets/cards/hover_action_card.py:149-152 | the action names, one per button, in insertion order |
| HoverActionCard.HoverActionCardWidget.ClickAction | pyqt_widgets/cards/hover_action_card.py:74 | a click on a button emits that button's action name |
| HoverActionCard.HoverActionCardWidget.SetTitle | pyqt_widgets/cards/hover_action_card.py:93-97 | the title becomes the given one |
| HoverActionCard.HoverActionCardWidget.SetSubtitle | pyqt_widgets/cards/hover_action_card.py:99-103 | the subtitle becomes the given one |
| HoverActionCard.HoverActionCardWidget.ShowActions | pyqt_widgets/cards/hover_action_card.py:115-136 | as written, the bar ends up shown when it was shown or there is an action, and a newly shown bar is fully transparent because the dropped fade-in has applied its start value |
| HoverActionCard.HoverActionCardWidget.ShowActionsIntended | pyqt_widgets/cards/hover_action_card.py:115-136 | with the intended fade-in, a newly shown bar is fully opaque; the bar stays hidden when there is no action |
| HoverActionCard.HoverActionCardWidget.HideActions | pyqt_widgets/cards/hover_action_card.py:138-147 | as written, the bar is not hidden: a shown bar with actions becomes fully opaque, the fade-out's start value, and its hiding callback never runs |
| HoverActionCard.HoverActionCardWidget.HideActionsIntended | pyqt_widgets/cards/hover_action_card.py:138-147 | with the intended fade-out, the bar ends up hidden unless it was shown with no action to hide |
| HoverActionCard.HoverActionCardWidget.Enter | pyqt_widgets/cards/hover_action_card.py:105-108 | the base card's hover signal fires exactly when the card is hoverable, and the actions are shown as written, transparent when newly shown |
| HoverActionCard.HoverActionCardWidget.Leave | pyqt_widgets/cards/hover_action_card.py:110-113 | the base card's leave signal fires exactly when the card is hoverable, and a shown bar with actions becomes opaque instead of hidden |
| HoverActionCard.ActionsAppearOnLeave | pyqt_widgets/cards/hover_action_card.py:105-147 | as written, a card with an action shows no action bar on its first hover, and after the pointer leaves the bar is seen and stays seen on the next hover |
| HoverActionCard.ActionsFollowHoverIntended | pyqt_widgets/cards/hover_action_card.py:105-147 | with the intended fades, the bar is seen while hovered and not after the pointer leaves |
| HoverActionCard.MediaCard.constructor | pyqt_widgets/cards/hover_action_card.py:211-251 | a media card whose actions are exactly play, share and more, in that order |
| HoverActionCard.MediaCard.AddMediaActions | pyqt_widgets/cards/hover_action_card.py:249-251 | the play, share and more buttons are appended after the existing actions |
| HoverActionCard.MediaCard.SetThumbnail | pyqt_widgets/cards/hover_action_card.py:253-257 | the thumbnail is stored and the three media actions are appended once more, as the rebuild does |
| HoverActionCard.ProjectCard.constructor | pyqt_widgets/cards/hover_action_card.py:262-266 | a project card whose chip shows the status in title case and whose actions are exactly open, edit and settings |
| HoverActionCard.ProjectCard.SetupProjectUi | pyqt_widgets/cards/hover_action_card.py:268-326 | the chip shows the title-cased status and open, edit and settings are appended after the existing actions |
| HoverActionCard.ProjectCard.SetStatus | pyqt_widgets/cards/hover_action_card.py:328-331 | the new status shows on the chip and the three project actions are appended again |
| HoverActionCard.ProjectCard.SetProgress | pyqt_widgets/cards/hover_action_card.py:333-336 | the progress is stored and the three project actions are appended again |
| InfoCard.MetricDescription | pyqt_widgets/cards/info_card.py:137-139 | the description is the value, a space and the unit, followed by " (change)" exactly when the change is non-empty |
| InfoCard.MetricDescriptionDeterminesParts | pyqt_widgets/cards/info_card.py:169-171 | for values and units without spaces, equal descriptions come from the same value, unit and change |
| InfoCard.ChangeSuffix | pyqt_widgets/cards/info_card.py:138-139 | the suffix is empty exactly for an empty change and otherwise holds the change between " (" and ")" |
| InfoCard.ChangeColorToken | pyqt_widgets/cards/info_card.py:153-159 | no recolouring for an empty change; success after a leading '+', danger after a leading '-', text otherwise |
| InfoCard.StatusColorToken | pyqt_widgets/cards/info_card.py:193-201 | active is success, error is danger, and any status outside the five known ones is text_secondary |
| InfoCard.InfoCardWidget.constructor | pyqt_widgets/cards/info_card.py:15-21 | the fields are stored and a label exists exactly for each non-empty title, subtitle and description |
| InfoCard.InfoCardWidget.SetupInfoUi | pyqt_widgets/cards/info_card.py:23-84 | a label is (re)made for each non-empty field, a label made earlier is kept for an empty one, and the body is replaced |
| InfoCard.InfoCardWidget.SetTitle | pyqt_widgets/cards/info_card.py:86-92 | an existing title label shows the new title and the other labels stay; without one the body is rebuilt; every label keeps showing its field |
| InfoCard.InfoCardWidget.SetSubtitle | pyqt_widgets/cards/info_card.py:94-100 | an existing subtitle label shows the new subtitle and the other labels stay; without one the body is rebuilt |
| InfoCard.InfoCardWidget.SetDescription | pyqt_widgets/cards/info_card.py:102-108 | a non-empty description always ends up in a label; an existing label is updated in place with its colour unchanged |
| InfoCard.InfoCardWidget.SetIcon | pyqt_widgets/cards/info_card.py:110-113 | the icon is stored and the body is rebuilt with every label still showing its field |
| InfoCard.MetricInfoCard.constructor | pyqt_widgets/cards/info_card.py:131-142 | the description is built from value, unit and change and its colour follows a non-empty change |
| InfoCard.MetricInfoCard.SetupMetricStyling | pyqt_widgets/cards/info_card.py:144-161 | with a description label and a non-empty change the colour becomes the change's token; otherwise it stays |
| InfoCard.MetricInfoCard.UpdateMetric | pyqt_widgets/cards/info_card.py:163-174 | the shown description is rebuilt from the new parts; an empty change keeps the previous colour |
| InfoCard.StatusInfoCard.constructor | pyqt_widgets/cards/info_card.py:180-183 | one dot of the status's colour in a new, visible header |
| InfoCard.StatusInfoCard.AddStatusIndicator | pyqt_widgets/cards/info_card.py:185-220 | with a visible header the dot is appended to those already there; otherwise a new header holds just this dot |
| InfoCard.StatusInfoCard.SetStatus | pyqt_widgets/cards/info_card.py:222-225 | the status is stored and a dot of its colour is added, the old dots staying while the header is visible |
| ProfileCard.ProfileInitials | pyqt_widgets/cards/profile_card.py:109-121 | the initials are one or two characters long |
| ProfileCard.ProfileInitialsSpec | pyqt_widgets/cards/profile_card.py:111-119 | a blank name gives "?"; otherwise one letter per word up to two, the first being the name's first visible character uppercased, and no letter is lower-case |
| ProfileCard.FirstLetters | pyqt_widgets/cards/profile_card.py:114-116 | one uppercased first letter per non-empty part, in order, and nothing for an empty part |
| ProfileCard.MemberStatusToken | pyqt_widgets/cards/profile_card.py:303-310 | online is success, and any status outside the four known ones is text_secondary |
| ProfileCard.ProfileCardWidget.constructor | pyqt_widgets/cards/profile_card.py:18-97 | no buttons and a hidden footer; the avatar shows the image when one is given and loads, the initials otherwise; a name label exists only for a non-empty name |
| ProfileCard.ProfileCardWidget.SetAvatarInitials | pyqt_widgets/cards/profile_card.py:109-121 | the avatar shows the initials of the current name |
| ProfileCard.ProfileCardWidget.SetAvatarImage | pyqt_widgets/cards/profile_card.py:99-107 | an image that loads replaces the text; one that does not falls back to the initials |
| ProfileCard.ProfileCardWidget.AddActionButton | pyqt_widgets/cards/profile_card.py:161-175 | one named button is appended and the footer is shown, so the footer is shown exactly while there are buttons |
| ProfileCard.ProfileCardWidget.RemoveActionButton | pyqt_widgets/cards/profile_card.py:177-187 | only the first button of that name leaves, and the footer is hidden once none is left |
| ProfileCard.ProfileCardWidget.ClickAction | pyqt_widgets/cards/profile_card.py:167 | a click on a button emits that button's action name |
| ProfileCard.ProfileCardWidget.SetName | pyqt_widgets/cards/profile_card.py:189-194 | an existing name label shows the new name, a missing one stays missing, and the avatar shows the new initials even over an image |
| ProfileCard.ProfileCardWidget.SetRole | pyqt_widgets/cards/profile_card.py:196-200 | the role becomes the given one |
| ProfileCard.ProfileCardWidget.SetEmail | pyqt_widgets/cards/profile_card.py:202-206 | the email becomes the given one |
| ProfileCard.ProfileCardWidget.SetAvatar | pyqt_widgets/cards/profile_card.py:208-211 | the path is stored; the avatar shows the image if it loads and the initials otherwise |
| ProfileCard.TeamMemberCard.constructor | pyqt_widgets/cards/profile_card.py:290-293 | a profile card with one status dot of the status's colour |
| ProfileCard.TeamMemberCard.SetStatus | pyqt_widgets/cards/profile_card.py:324-327 | the status is stored and a new dot is added over the earlier ones, which stay |
| ImageCard.ViewOf | build/lib/pyqt_widgets/cards/image_card.py:104-119 | "No Image" exactly for an empty path, the picture exactly when a non-empty path loads, and "Invalid Image" exactly when it does not |
| ImageCard.CounterTextInjective | build/lib/pyqt_widgets/cards/image_card.py:227-230 | two counters read the same only for the same position and the same count |
| ImageCard.CounterTextParts | build/lib/pyqt_widgets/cards/image_card.py:200 | the counter is the digits of the position, the separator " / " and the count, with no space inside the position |
| ImageCard.StarsText | build/lib/pyqt_widgets/cards/image_card.py:302-303 | no label exactly for a rating that is not positive; otherwise one full star per whole unit then empty stars up to five |
| ImageCard.ImageCardWidget.constructor | build/lib/pyqt_widgets/cards/image_card.py:17-24 | the fields are stored, the view follows the path, and an overlay exists exactly when there is a title or a description |
| ImageCard.ImageCardWidget.SetupUi | build/lib/pyqt_widgets/cards/image_card.py:26-96 | the view and the overlay are rebuilt from the current path, title and description |
| ImageCard.ImageCardWidget.SetImage | build/lib/pyqt_widgets/cards/image_card.py:132-135 | the path is stored; a non-empty one is loaded and an empty one leaves the label as it was |
| ImageCard.ImageCardWidget.SetTitle | build/lib/pyqt_widgets/cards/image_card.py:137-140 | the title is stored and the view and overlay are rebuilt |
| ImageCard.ImageCardWidget.SetDescription | build/lib/pyqt_widgets/cards/image_card.py:142-145 | the description is stored and the view and overlay are rebuilt |
| ImageCard.ImageCardWidget.ImageClick | build/lib/pyqt_widgets/cards/image_card.py:127-130 | image_clicked is emitted exactly for a left click |
| ImageCard.GalleryCard.constructor | build/lib/pyqt_widgets/cards/image_card.py:173-182 | the gallery shows the image at the start index, counted from the end when negative, and a counter exists exactly when there is more than one image |
| ImageCard.GalleryCard.Create | build/lib/pyqt_widgets/cards/image_card.py:173-182 | construction fails with IndexError exactly when there are images and the start index cannot be looked up |
| ImageCard.GalleryCard.UpdateCounter | build/lib/pyqt_widgets/cards/image_card.py:227-230 | an existing counter shows the current position and count; a missing one stays missing |
| ImageCard.GalleryCard.ShowCurrent | build/lib/pyqt_widgets/cards/image_card.py:217-218 | the image at the index is shown and the counter updated, or IndexError is raised exactly when the index cannot be looked up, before anything is shown |
| ImageCard.GalleryCard.PreviousImage | build/lib/pyqt_widgets/cards/image_card.py:213-218 | the index goes down by one exactly when it is above 0, and the lookup fails exactly when the new index is past the end |
| ImageCard.GalleryCard.NextImage | build/lib/pyqt_widgets/cards/image_card.py:220-225 | the index goes up by one exactly when it is below the last position, and the lookup fails exactly when the new index is below minus the length |
| ImageCard.GalleryCard.AddImage | build/lib/pyqt_widgets/cards/image_card.py:232-237 | the image is appended and shown only when it is the first, the index stays, and the counter follows |
| ImageCard.GalleryCard.RemoveImage | build/lib/pyqt_widgets/cards/image_card.py:239-247 | an index out of range changes nothing; otherwise that image is deleted, an index past the end moves to the last position, and the image there is shown |
| ImageCard.GalleryCard.SetImages | build/lib/pyqt_widgets/cards/image_card.py:249-255 | the images are replaced, the index goes back to 0 and the first image is shown |
| ImageCard.GalleryIndexQuirk | build/lib/pyqt_widgets/cards/image_card.py:232-247 | removing the only image leaves index -1 and adding an image afterwards does not reset it |
| ImageCard.EmptyGalleryStepRaises | build/lib/pyqt_widgets/cards/image_card.py:173-237 | an empty gallery keeps start index 5, and after one image is added stepping back raises IndexError |
| ImageCard.NegativeStartShowsLast | build/lib/pyqt_widgets/cards/image_card.py:173-200 | start index -1 shows the last image and the counter reads position 0 of 3 |
| ImageCard.ProductCard.constructor | build/lib/pyqt_widgets/cards/image_card.py:261-266 | the name is the image title and one info row shows the name, price and stars |
| ImageCard.ProductCard.InfoRow | build/lib/pyqt_widgets/cards/image_card.py:268-303 | a name label exactly for a non-empty name, a price label exactly for a non-empty price, and the stars of the rating |
| ImageCard.ProductCard.SetPrice | build/lib/pyqt_widgets/cards/image_card.py:318-321 | the price is stored and a further info row with it is added after the earlier ones |
| ImageCard.ProductCard.SetRating | build/lib/pyqt_widgets/cards/image_card.py:323-326 | the rating is stored and a further info row with it is added after the earlier ones |
| ImageCard.ProductCard.SetName | build/lib/pyqt_widgets/cards/image_card.py:313-316 | the name becomes the image's title; the rebuilt image body replaces everything in the body layout (`set_body`, image_card.py:99), so no info row is left on the card |
| ImageCard.ProductCard.SetDescription | build/lib/pyqt_widgets/cards/image_card.py:142-145 | the description is stored and, as for the name, the rebuilt body leaves no info row on the card |
| StableSort.StrLeTotal | pyqt_widgets/navigation/command_palette.py:171-174 | Python's string comparison orders any two names one way or the other |
| StableSort.StrLeTrans | pyqt_widgets/navigation/command_palette.py:171-174 | Python's string comparison is transitive |
| StableSort.StrLeAntisym | pyqt_widgets/navigation/command_palette.py:171-174 | two names that compare both ways are equal |
| StableSort.KeyLeFacts | pyqt_widgets/navigation/command_palette.py:171-174 | the (rank, name) tuple comparison is a total order |
| StableSort.InsertSorted | pyqt_widgets/navigation/command_palette.py:171-174 | inserting an entry into a sorted list keeps it sorted |
| StableSort.SortSorted | pyqt_widgets/navigation/command_palette.py:171-174 | the sorted list is in non-decreasing key order |
| StableSort.SortPermutation | pyqt_widgets/navigation/command_palette.py:171-174 | the sorted list holds exactly the entries given, with their multiplicities |
| StableSort.InsertStable | pyqt_widgets/navigation/command_palette.py:171-174 | inserting keeps the entries of every key in their order and puts the new one after those of its key |
| StableSort.SortStable | pyqt_widgets/navigation/command_palette.py:171-174 | entries with equal keys come out in the order they went in, as Python's sort guarantees |
| StableSort.SortItemsPermutation | pyqt_widgets/navigation/command_palette.py:171-174 | the sorted commands are exactly the commands given |
| Common.Lower | pyqt_widgets/navigation/command_palette.py:160 | `str.lower` keeps the length and lowercases each ASCII capital, leaving every other character |
| Common.Upper | pyqt_widgets/cards/profile_card.py:116 | `str.upper` keeps the length and uppercases each ASCII small letter, leaving every other character |
| Common.TitleCase | pyqt_widgets/cards/hover_action_card.py:283 | `str.title` capitalises a letter that follows a non-letter, lowercases one that follows a letter, and leaves non-letters |
| Common.LowerIdempotent | pyqt_widgets/navigation/command_palette.py:160 | lowering an already lowered text changes nothing |
| Common.ContainsIff | pyqt_widgets/navigation/command_palette.py:167 | Python's `needle in hay` holds exactly when the needle occurs at some position of the text |
| Common.ContainsAcrossSeparator | pyqt_widgets/navigation/command_palette.py:167 | a needle without the separator character occurs in two texts joined by it exactly when it occurs in one of them |
| Common.PrefixIffOccursAtZero | pyqt_widgets/navigation/command_palette.py:172 | `startswith` holds exactly when the needle occurs at position 0 |
| Common.LowerAppend | pyqt_widgets/navigation/command_palette.py:160 | lowering a concatenation lowers each part |
| Common.StripLeft | pyqt_widgets/navigation/command_palette.py:160 | `lstrip` removes exactly the leading whitespace |
| Common.StripRight | pyqt_widgets/navigation/command_palette.py:160 | `rstrip` removes exactly the trailing whitespace |
| Common.Strip | pyqt_widgets/navigation/command_palette.py:160 | `strip` leaves a text that is empty or starts and ends with a non-space |
| Common.StripEmptyIff | pyqt_widgets/navigation/command_palette.py:160 | stripping gives the empty text exactly for a text made only of whitespace |
| Common.StripNoop | pyqt_widgets/navigation/command_palette.py:160 | stripping a text without outer whitespace returns it unchanged |
| Common.Split | pyqt_widgets/user/user_avatar.py:130 | `split()` yields only non-empty words without whitespace |
| Common.SplitWord | pyqt_widgets/user/user_avatar.py:130 | a single word splits into itself |
| Common.SplitEmptyIff | pyqt_widgets/user/user_avatar.py:130 | `split()` yields no word exactly for a blank text |
| Common.SplitFirstChar | pyqt_widgets/user/user_avatar.py:130 | the first word starts with the text's first non-space character |
| Common.SplitAtSpace | pyqt_widgets/cards/info_card.py:137 | a text cut at its first space determines both pieces |
| Common.NatToStr | build/lib/pyqt_widgets/cards/image_card.py:200 | `str(n)` of a natural number is a non-empty run of digits, one digit exactly below ten |
| Common.IntToStr | build/lib/pyqt_widgets/cards/image_card.py:200 | `str(n)` is non-empty and starts with '-' exactly for a negative number |
| Common.NatToStrRoundTrip | build/lib/pyqt_widgets/cards/image_card.py:200 | reading the digits back gives the number |
| Common.IntToStrInjective | build/lib/pyqt_widgets/cards/image_card.py:200 | different numbers print differently |
| Common.Join | pyqt_widgets/navigation/breadcrumb_bar.py:179 | joining no part gives the empty text and joining one part gives that part |
| Common.Repeat | build/lib/pyqt_widgets/cards/image_card.py:303 | `x * n` is n copies of x |
| Common.PyIndex | build/lib/pyqt_widgets/cards/image_card.py:178 | a non-negative index counts from the front and a negative one from the end |
| Common.PyTake | pyqt_widgets/cards/profile_card.py:114 | `s[:n]` is a prefix of length n, capped at the length, and counted from the end for a negative n |
| Common.IndexOf | pyqt_widgets/user/user_list_item.py:108-114 | the first position holding the value |
| Common.RemoveFirst | pyqt_widgets/utility/shortcut_helper.py:257 | `list.remove` of an absent value changes nothing |
| Common.RemoveFirstSlices | pyqt_widgets/utility/shortcut_helper.py:257 | `list.remove` cuts out exactly the first occurrence |
| Common.RemoveFirstAfter | pyqt_widgets/utility/shortcut_helper.py:257 | removing a value just appended to a list without it gives the list back |
| Common.RemoveFirstMultiset | pyqt_widgets/utility/shortcut_helper.py:257 | `list.remove` takes out one copy of the value and nothing else |
| Common.RemoveFirstDistinct | pyqt_widgets/utility/shortcut_helper.py:257 | on a list without duplicates, removal keeps it duplicate-free and leaves exactly the other values |
| Common.DistinctSnoc | pyqt_widgets/utility/shortcut_helper.py:257 | appending a new value keeps a list duplicate-free |
| Common.MoveToFront | pyqt_widgets/utility/clipboard_history.py:168-190 | the value comes first, followed by the old list without it, capped at the maximum size |
| Common.MoveToFrontDistinct | pyqt_widgets/utility/clipboard_history.py:168-190 | moving to the front keeps a list duplicate-free and the value appears only at the front |
| Common.DeleteAt | build/lib/pyqt_widgets/cards/image_card.py:242 | `del s[i]` shifts every later element down by one and keeps the earlier ones |
| Common.SpacesToUnderscores | pyqt_widgets/cards/hover_action_card.py:68 | `replace(" ", "_")` turns each space into an underscore and keeps every other character |
| Common.DefaultActionName | pyqt_widgets/cards/hover_action_card.py:67-68 | the default action name has the text's length, no space, and the lowercased characters of the text elsewhere |
| Common.ActionName | pyqt_widgets/cards/hover_action_card.py:67-68 | a given name is kept and a missing one is derived from the text |
| Common.Names | pyqt_widgets/cards/hover_action_card.py:149-152 | the names of the entries, one per entry, in order |
| Common.NamesAppend | pyqt_widgets/cards/hover_action_card.py:149-152 | the names of two lists joined are the names of each |
| Common.FindName | pyqt_widgets/cards/hover_action_card.py:81-85 | the loop finds -1 exactly for an absent name and otherwise the first position holding it |
| Common.IndexOfIsFirst | pyqt_widgets/cards/hover_action_card.py:81-85 | a position holding the value with no earlier one holding it is the first position |
| Common.RemoveNamed | pyqt_widgets/cards/hover_action_card.py:79-85 | exactly the first entry with the name leaves the list, and an absent name changes nothing |
| PyDict.Get | pyqt_widgets/navigation/command_palette.py:149 | a lookup finds a value exactly for a key in the dictionary |
| PyDict.GetAt | pyqt_widgets/navigation/command_palette.py:149 | the value stored at an entry is what its key looks up |
| PyDict.Put | pyqt_widgets/navigation/command_palette.py:144 | `d[k] = v` keeps the key order, appends a new key at the end, makes k look up v and leaves every other key |
| PyDict.PutIsDict | pyqt_widgets/navigation/command_palette.py:144 | an assignment keeps the keys distinct |
| PyDict.PutAt | pyqt_widgets/navigation/command_palette.py:144 | assigning to an existing key replaces its value in place |
| PyDict.PutNew | pyqt_widgets/navigation/command_palette.py:144 | assigning a new key appends the entry at the end |
| PyDict.PutPut | pyqt_widgets/navigation/command_palette.py:144 | the second of two assignments to one key wins |
| PyDict.PutSame | pyqt_widgets/navigation/command_palette.py:144 | assigning a key the value it already has changes nothing |
| PyDict.Del | pyqt_widgets/navigation/command_palette.py:149-150 | `del d[k]` removes exactly that key, changes nothing for an absent key and leaves every other lookup |
| PyDict.DelIsDict | pyqt_widgets/navigation/command_palette.py:149-150 | after deletion the keys stay distinct and the key looks up nothing |
| PyDict.Values | pyqt_widgets/navigation/command_palette.py:166 | `d.values()` is the values in key order |
| PyDict.ToMap | pyqt_widgets/navigation/command_palette.py:166 | the dictionary as a map has the same keys and lookups |
| PyDict.GetSnoc | pyqt_widgets/navigation/command_palette.py:144 | after appending an entry, earlier keys look up as before and the new key finds its value |
| AccordionMenu.AccordionMenuWidget.constructor | pyqt_widgets/navigation/accordion_menu.py:18-22 | an accordion with no section that allows several open sections exactly when asked |
| AccordionMenu.SimpleAccordion.constructor | pyqt_widgets/navigation/accordion_menu.py:337-338 | an empty accordion that keeps one section open at a time |
| AccordionMenu.SettingsAccordion.constructor | pyqt_widgets/navigation/accordion_menu.py:353-354 | an empty accordion that lets several sections be open at once |
| AccordionMenu.NavigationAccordion.constructor | pyqt_widgets/navigation/accordion_menu.py:369-371 | an empty single-open accordion with no active item |
| AccordionMenu.SectionItems | pyqt_widgets/navigation/accordion_menu.py:327-331 | an unknown section has no items |
| AccordionMenu.CollapseOthersNames | pyqt_widgets/navigation/accordion_menu.py:205-208 | collapsing the other sections keeps every section, in its place |
| AccordionMenu.RemoveNamedAppended | pyqt_widgets/navigation/accordion_menu.py:301-311 | removing an item just added under a fresh name gives back the earlier item names |
| AccordionMenu.WithItemOnPut | pyqt_widgets/navigation/accordion_menu.py:340-348 | adding an item to a section just assigned is the same as assigning the section with that item appended |
| BadgeLabel.BadgeLabelWidget.SetWindowShown | pyqt_widgets/feedback/badge_label.py:274-279 | the window's shown state, which Qt's isVisible depends on, becomes the given one |
| BreadcrumbBar.DisplayPaths | pyqt_widgets/navigation/breadcrumb_bar.py:87-94 | a non-empty trail always displays at least one segment |
| BreadcrumbBar.BreadcrumbBarWidget.constructor | pyqt_widgets/navigation/breadcrumb_bar.py:16-21 | an empty trail with the given separator and limit, and a bar built for it |
| BreadcrumbBar.BreadcrumbBarWidget.Update | pyqt_widgets/navigation/breadcrumb_bar.py:76-129 | the widgets are rebuilt to be exactly the bar of the current trail, limit and separator |
| BreadcrumbBar.FileBreadcrumbBar.constructor | pyqt_widgets/navigation/breadcrumb_bar.py:199-200 | an empty trail separated by " / " with the default limit of five |
| BreadcrumbBar.WebBreadcrumbBar.constructor | pyqt_widgets/navigation/breadcrumb_bar.py:229-230 | an empty trail separated by " › " with the default limit of five |
| BreadcrumbBar.CustomizableBreadcrumb.constructor | pyqt_widgets/navigation/breadcrumb_bar.py:262-264 | the default separator " > " and limit of five, and no icon set |
| BreadcrumbBar.LeadingSlashSplit | pyqt_widgets/navigation/breadcrumb_bar.py:237 | splitting a path that starts with '/' gives an empty first field before the rest |
| BreadcrumbBar.NonEmptySkipsEmpty | pyqt_widgets/navigation/breadcrumb_bar.py:237 | the filter `if part` drops that empty first field |
| BreadcrumbBar.UrlPathOfHost | pyqt_widgets/navigation/breadcrumb_bar.py:245-256 | a host followed by segments is written "https://host", then "/" and the segments joined by "/" when there are any |
| ClipboardHistory.ContentsRemoveContent | pyqt_widgets/utility/clipboard_history.py:170-175 | removing the first entry with a content removes exactly that content's first occurrence from the content list |
| ClipboardHistory.ContentsTake | pyqt_widgets/utility/clipboard_history.py:189-190 | cutting the history to a length cuts its contents to the same length |
| CommandPalette.Query | pyqt_widgets/navigation/command_palette.py:160 | the query is no longer than the text and has no whitespace at either end |
| CommandPalette.Candidates | pyqt_widgets/navigation/command_palette.py:160-168 | an empty query keeps every command, in order |
| CommandPalette.LowerFields | pyqt_widgets/navigation/command_palette.py:138-145 | lowercasing the space-joined name, description and category lowercases each of them |
| CommandPalette.FilterOrderPermutation | pyqt_widgets/navigation/command_palette.py:160-174 | the sorted list holds exactly the matching commands, with their multiplicities |
| CommandPalette.FilterOrderMembers | pyqt_widgets/navigation/command_palette.py:160-174 | a command is listed exactly when it is registered and its search text contains the query |
| CommandPalette.FilterOrderRanked | pyqt_widgets/navigation/command_palette.py:171-174 | sorting by the key puts the commands in rank order |
| CommandPalette.PrefixMatchesFirst | pyqt_widgets/navigation/command_palette.py:170-174 | every name that starts with the query comes before every name that does not |
| CommandPalette.WordsScore | pyqt_widgets/navigation/command_palette.py:442-450 | the per-word score is at most fifteen points per word |
| CommandPalette.ScoredMembers | pyqt_widgets/navigation/command_palette.py:403-406 | exactly the commands with a positive score are collected |
| CommandPalette.ScoredOrderMembers | pyqt_widgets/navigation/command_palette.py:403-411 | the scored result lists exactly the commands with a positive score |
| CommandPalette.ScoresDescend | pyqt_widgets/navigation/command_palette.py:409-411 | sorting by score with reverse order puts higher scores first |
| CommandPalette.CommandPaletteWidget.constructor | pyqt_widgets/navigation/command_palette.py:18-22 | a hidden modal popup with no command, no row, no selection and an empty search |
| CommandPalette.CommandPaletteWidget.SelectFirstRow | pyqt_widgets/navigation/command_palette.py:178-180 | a non-empty list selects its first row; an empty one keeps the selection |
| CommandPalette.QuickCommandPalette.AddFileCommands | pyqt_widgets/navigation/command_palette.py:332-335 | the command names become the old ones plus New File, Open File, Save and Save As |
| CommandPalette.QuickCommandPalette.AddEditCommands | pyqt_widgets/navigation/command_palette.py:337-340 | the command names become the old ones plus Copy, Paste, Undo and Redo |
| CommandPalette.QuickCommandPalette.AddViewAndHelpCommands | pyqt_widgets/navigation/command_palette.py:342-343 | the command names become the old ones plus Settings and Help |
| CommandPalette.ApplicationCommandPalette.constructor | pyqt_widgets/navigation/command_palette.py:349-351 | an empty palette with an empty action registry |
| CommandPalette.SearchableCommandPalette.constructor | pyqt_widgets/navigation/command_palette.py:383-387 | an empty palette with no pending search and the debounce timer stopped |
| CommandPalette.SearchableCommandPalette.SetSearchText | pyqt_widgets/navigation/command_palette.py:389-393 | a changed text restarts the debounce timer with that text pending; the same text changes nothing |
| CommandPalette.SearchableCommandPalette.ShowPalette | pyqt_widgets/navigation/command_palette.py:311-316 | the search is cleared, an empty search is pending on a running timer, and the popup is shown centred, transparent as written |
| CommentThread.CommentWidget.constructor | pyqt_widgets/user/comment_thread.py:22-33 | a comment with the given author, content and likes, not liked and not being edited |
| CommentThread.CommentWidget.StartEdit | pyqt_widgets/user/comment_thread.py:259-265 | the comment enters edit mode |
| CommentThread.CommentWidget.TypeDraft | pyqt_widgets/user/comment_thread.py:269 | the edit box holds the typed text |
| CommentThread.CommentThreadWidget.Insert | pyqt_widgets/user/comment_thread.py:548-558 | the new comment gets an unused id, is stored under it, and its id is appended to its parent's list, which is created last when missing |
| CommentThread.CommentThreadWidget.RebuildCommentsUi | pyqt_widgets/user/comment_thread.py:499-508 | the displayed comments are the thread laid out from "root" |
| CommentThread.CommentThreadWidget.UpdateCommentCount | pyqt_widgets/user/comment_thread.py:532-535 | the count label shows the number of stored comments |
| CommentThread.CommentThreadWidget.TypeComment | pyqt_widgets/user/comment_thread.py:413 | the comment box holds the typed text |
| DataTable.ResizedRow | pyqt_widgets/data/data_table.py:132-138 | after the resize a row has exactly the new column count plus the checkbox column |
| DataTable.Filled | pyqt_widgets/data/data_table.py:140-150 | setting a row's values never changes its number of cells |
| DataTable.Loaded | pyqt_widgets/data/data_table.py:126-161 | a loaded table has one row per data row, each with every column plus the checkbox column |
| DataTable.KeptHidden | pyqt_widgets/data/data_table.py:132 | a row count change keeps one hidden flag per row |
| DataTable.KeptBoxes | pyqt_widgets/data/data_table.py:132 | a row count change keeps one checkbox slot per row |
| DataTable.Texts | pyqt_widgets/data/data_table.py:195-226 | one text per cell of the row |
| DataTable.Gather | pyqt_widgets/data/data_table.py:238-244 | the double-clicked row's dictionary has distinct keys |
| DataTable.ZipDict | pyqt_widgets/data/data_table.py:281-285 | `dict(zip(columns, values))` has distinct keys |
| DataTable.ZipDictColumns | pyqt_widgets/data/data_table.py:281-285 | with distinct columns, each column looks up the value at its position, or nothing past the end of the row |
| DataTable.ClickedCells | pyqt_widgets/data/data_table.py:238-244 | the double click reads one cell per column |
| DataTable.DataTableWidget.SetFields | pyqt_widgets/data/data_table.py:21-30 | the table's columns, data and page size are the given ones, sorting and filtering are on, checkboxes off, no search and page one of one |
| DataTable.DataTableWidget.ClearTable | pyqt_widgets/data/data_table.py:32-52 | a fresh table has no row, no column and no current row |
| Common.Greater | build/lib/pyqt_widgets/forms/date_range_picker.py:287-301 | the later of two days: at least both, and one of them |
| DateRangePicker.DateRangeCalendarPopup.Close | build/lib/pyqt_widgets/forms/date_range_picker.py:316 | the popup is closed |
| DockablePanel.WithPanel | build/lib/pyqt_widgets/navigation/dockable_panel.py:310-316 | after `add_panel` the panel is in the list |
| DockablePanel.DockingArea.constructor | build/lib/pyqt_widgets/navigation/dockable_panel.py:285-289 | an empty area with the given orientation |
| DockablePanel.ContentWidget.constructor | build/lib/pyqt_widgets/navigation/dockable_panel.py:375-390 | the tab's content widget wraps the given panel |
| DockablePanel.TabbedDockingArea.constructor | build/lib/pyqt_widgets/navigation/dockable_panel.py:358-373 | an empty area with an empty tab widget that is not shown: `setParent(None)` (dockable_panel.py:367) does not unset the first layout, so the `QVBoxLayout(self)` meant to hold the container is refused |
| DockablePanel.TabbedDockingArea.Intended | build/lib/pyqt_widgets/navigation/dockable_panel.py:358-373 | as intended, the tabbed container replaces the first layout and is shown |
| DockablePanel.TabbedDockingArea.ShownPanels | build/lib/pyqt_widgets/navigation/dockable_panel.py:358-389 | the panels on screen: every panel of the area when the container is shown, none otherwise |
| DockablePanel.Splitter.constructor | build/lib/pyqt_widgets/navigation/dockable_panel.py:399-410 | an empty splitter with the given orientation |
| DockablePanel.SplitterDockingArea.constructor | build/lib/pyqt_widgets/navigation/dockable_panel.py:395-410 | an empty area whose splitter is empty, has the area's orientation and is not shown, its layout being refused as in the tabbed area (dockable_panel.py:404) |
| DockablePanel.SplitterDockingArea.Intended | build/lib/pyqt_widgets/navigation/dockable_panel.py:395-410 | as intended, the splitter replaces the first layout and is shown |
| DockablePanel.SplitterDockingArea.ShownPanels | build/lib/pyqt_widgets/navigation/dockable_panel.py:395-418 | the panels on screen: the splitter's widgets when it is shown, none otherwise |
| DockablePanel.TabbedPanelHidden | build/lib/pyqt_widgets/navigation/dockable_panel.py:364-373 | as written, a panel added to a tabbed area is not on screen |
| DockablePanel.TabbedPanelShownIntended | build/lib/pyqt_widgets/navigation/dockable_panel.py:375-389 | as intended, the same panel is shown on its tab "Files" |
| DockablePanel.SplitPanelHidden | build/lib/pyqt_widgets/navigation/dockable_panel.py:401-410 | as written, a panel added to a splitter area is not on screen |
| DockablePanel.SplitPanelShownIntended | build/lib/pyqt_widgets/navigation/dockable_panel.py:412-418 | as intended, the same panel is shown in the splitter |
| EmptyState.ShownAfterRemove | pyqt_widgets/feedback/empty_state.py:103-109 | removing a button that is on screen leaves one fewer on screen, any other removal leaves as many, and when all were on screen all that remain are |
| FloatingActionButton.ExpandedSubs | pyqt_widgets/utility/floating_action_button.py:109-138 | an expansion keeps one sub-button per sub-action |
| FloatingActionButton.ExpandAnims | pyqt_widgets/utility/floating_action_button.py:109-138 | an expansion runs one animation per sub-button |
| FloatingActionButton.CollapsedSubs | pyqt_widgets/utility/floating_action_button.py:140-164 | a collapse keeps one sub-button per sub-action |
| FloatingActionButton.CollapseAnims | pyqt_widgets/utility/floating_action_button.py:140-164 | a collapse runs one animation per sub-button |
| KanbanBoard.ColumnTexts | build/lib/pyqt_widgets/data/kanban_board.py:442-447 | the id text of each column, in order |
| KanbanBoard.Saved | build/lib/pyqt_widgets/data/kanban_board.py:462-480 | the board data keeps every column's id and title and saves each of its cards, in order |
| KanbanBoard.Restored | build/lib/pyqt_widgets/data/kanban_board.py:482-498 | loading restores each column of the data, in order |
| KanbanBoard.KanbanBoardWidget.FindColumnAt | build/lib/pyqt_widgets/data/kanban_board.py:442-447 | the loop stops at the first column whose id reads the same as the one asked for |
| KanbanBoard.KanbanBoardWidget.FileCard | build/lib/pyqt_widgets/data/kanban_board.py:399-402 | the card is filed under its id and appended to its column; nothing else changes |
| KanbanBoard.KanbanBoardWidget.MoveBetween | build/lib/pyqt_widgets/data/kanban_board.py:426-428 | the first card with the id leaves its column, the filed card joins the end of the target, and the card count is unchanged |
| Pagination.BarWellFormed | pyqt_widgets/navigation/pagination.py:128-178 | page 1 with its ellipsis, the window and the trailing ellipsis with the last page form a well-formed bar |
| Pagination.BarMarks | pyqt_widgets/navigation/pagination.py:196-209 | exactly the button of the current page is marked current |
| Pagination.BarNeighbours | pyqt_widgets/navigation/pagination.py:128-178 | two adjacent page buttons show consecutive pages |
| Pagination.BarEllipses | pyqt_widgets/navigation/pagination.py:128-178 | an ellipsis stands only between two page buttons and only where pages are skipped |
| Pagination.PaginationWidget.constructor | pyqt_widgets/navigation/pagination.py:18-26 | the mode, page count, current page and window size are the given ones; the simple mode enables Previous and Next by position and the load-more mode shows its button and the first 20 items |
| Pagination.PaginationWidget.Refresh | pyqt_widgets/navigation/pagination.py:128-216 | the controls are rebuilt to agree with the current page, the page count and the mode |
| Pagination.InfiniteScrollPagination.constructor | pyqt_widgets/navigation/pagination.py:301-305 | a load-more bar with no item loaded and no total known |
| PinnedNote.LoadAll | pyqt_widgets/utility/pinned_note.py:382-399 | a reload makes one note per saved record |
| ProgressOverlay.IndicatorItems | pyqt_widgets/feedback/progress_overlay.py:81-88 | spinner, bar and dots each get their indicator first in the box, and any other type gets none |
| ProgressOverlay.ProgressOverlayManager.Forget | pyqt_widgets/feedback/progress_overlay.py:325-330 | the widget's overlay leaves the manager and nothing else changes |
| PropertyGrid.ClampInt | build/lib/pyqt_widgets/data/property_grid.py:152-158 | an integer editor shows a value within -999999 to 999999 |
| PropertyGrid.ClampReal | build/lib/pyqt_widgets/data/property_grid.py:160-167 | a float editor shows a value within -999999.0 to 999999.0, and a value inside that range unchanged |
| PropertyGrid.Texts | build/lib/pyqt_widgets/data/property_grid.py:178 | the choice box lists `str(opt)` for each option, in order |
| PropertyGrid.Joined | build/lib/pyqt_widgets/data/property_grid.py:341-370 | adding a row to a group keeps the number of top-level rows |
| PropertyGrid.ReflectedProps | build/lib/pyqt_widgets/data/property_grid.py:386-401 | at most one property per attribute |
| PropertyGrid.AutoTypes | build/lib/pyqt_widgets/data/property_grid.py:317-322 | `set_properties` records each value's detected type under its name, in dictionary order |
| PropertyGrid.AutoRows | build/lib/pyqt_widgets/data/property_grid.py:317-322 | `set_properties` makes one row per entry, with the editor the value's detected type picks |
| PropertyGrid.AttrNames | build/lib/pyqt_widgets/data/property_grid.py:394 | the attribute names, in `dir()` order |
| PropertyGrid.PropertyGridWidget.Store | build/lib/pyqt_widgets/data/property_grid.py:96-97 | the value and the type are assigned under the name in their dictionaries |
| QuickSettings.Signal | pyqt_widgets/utility/quick_settings_panel.py:367-375 | a reset makes a control signal exactly when the value it reports changes |
| QuickSettings.QuickSettingsPanel.Register | pyqt_widgets/utility/quick_settings_panel.py:204-216 | the setting's value and its control are stored under its name; a name already present keeps its place |
| QuickSettings.QuickSettingsPanel.ResetEntry | pyqt_widgets/utility/quick_settings_panel.py:369-375 | one control is reset, the others are untouched, and the setting is recorded only when the control signalled |
| QuickSettings.ResetOne | pyqt_widgets/utility/quick_settings_panel.py:369-375 | resetting one more control extends the outcome of the earlier ones by that control's emission |
| RatingStar.DisplayLast | pyqt_widgets/user/rating_star.py:85-102 | the stars painted for `n` are those for `n - 1` followed by the last star's paint |
| ReactionBar.InsertAt | build/lib/pyqt_widgets/user/reaction_bar.py:52 | `insertWidget(i, x)` puts `x` at slot `i` and grows the row by one |
| SidebarNav.SidebarNavWidget.constructor | pyqt_widgets/navigation/sidebar_nav.py:18-25 | an expanded, empty sidebar with no active item and the given collapsibility |
| Snackbar.PresetDefaults | build/lib/pyqt_widgets/feedback/snackbar.py:226-233 | the undo preset lasts 4000 ms and the retry preset 6000 ms, and their action texts differ |
| StatusChip.StatusChipGroup.constructor | build/lib/pyqt_widgets/feedback/status_chip.py:266-270 | a group with no chip |
| StatusChip.TextsDeleteAt | build/lib/pyqt_widgets/feedback/status_chip.py:295-301 | removing a chip removes exactly its text from the group's texts |
| TabBar.ActiveAfterClose | pyqt_widgets/navigation/tab_bar.py:205-219 | closing the only tab leaves none active, and closing one of several leaves an active index among the remaining tabs |
| TabBar.Rekey | pyqt_widgets/navigation/tab_bar.py:383-388 | the closed index is dropped, lower keys keep their widgets and higher keys move down by one |
| TabBar.RekeyKeys | pyqt_widgets/navigation/tab_bar.py:376-388 | a map over tabs 0..n-1 becomes a map over 0..n-2 after one is closed |
| TabBar.AddedEventsState | pyqt_widgets/navigation/tab_bar.py:355-374 | the events `add_tab` raises before the widget is stored leave the stored widgets as they were and change no visibility |
| TabBar.CloseActiveFirstOfTwo | pyqt_widgets/navigation/tab_bar.py:366-388 | closing the shown first of two tabs shifts the second to key 0 and leaves nothing shown |
| TabBar.ClickShowsKeyZero | pyqt_widgets/navigation/tab_bar.py:366-374 | clicking tab 0 shows its widget and hides the rest |
| TabBar.TabBarWidget.constructor | pyqt_widgets/navigation/tab_bar.py:20-26 | an empty bar with no active tab and the given closeable and scrollable flags |
| TabBar.TabbedContainer.constructor | pyqt_widgets/navigation/tab_bar.py:332-353 | an empty container over a fresh closeable, scrollable bar with no widget stored or shown |
| TabBar.TabbedContainer.ClickTab | pyqt_widgets/navigation/tab_bar.py:183-185 | clicking an existing tab makes it active and the container handles the click event; clicking outside the tabs changes nothing |
| TabBar.TwoTabsFirstShown | pyqt_widgets/navigation/tab_bar.py:355-374 | two tabs added and the first clicked: both widgets stored under 0 and 1 and only the first shown |
| TabBar.SyncedTabbedContainer.constructor | pyqt_widgets/navigation/tab_bar.py:332-353 | the corrected container starts empty like the original |
| TabBar.SyncedTabbedContainer.ShowActive | pyqt_widgets/navigation/tab_bar.py:366-374 | the corrected container shows exactly the active tab's widget |
| TabBar.SyncedTabbedContainer.AddTab | pyqt_widgets/navigation/tab_bar.py:355-364 | the tab is appended, its widget stored under its index, and shown when it became active |
| TabBar.SyncedTabbedContainer.ClickTab | pyqt_widgets/navigation/tab_bar.py:366-374 | clicking an existing tab makes it active and shows exactly its widget |
| TagInput.MatchingSuggestions | pyqt_widgets/forms/tag_input.py:201-208 | the suggestions shown are among the candidates, containing the query ignoring case and not yet tags |
| TagInput.CategoryTagInput.Intended | pyqt_widgets/forms/tag_input.py:322-350 | an empty tag input with placeholder "Add tags...", no limit, the given categories, no current category, and a combo box holding "All Categories" (no data) then each category by name |
| TagInput.NewCategoryTagInput | pyqt_widgets/forms/tag_input.py:322-344 | as written, the constructor raises AttributeError: `QComboBox` has no `currentDataChanged` signal |
| TagInput.CategoryComboData | pyqt_widgets/forms/tag_input.py:340-343 | the combo box's data: first `None` for "All Categories", then each category's name in order |
| TagInput.CategoryTagInput.SelectCategory | pyqt_widgets/forms/tag_input.py:344-364 | picking combo item i hands its data to the category handler: item 0 offers every category's tags, item k offers the k-th category's own tags; an index outside the items has no data |
| TagInput.ReadOnlyTagDisplay.constructor | pyqt_widgets/forms/tag_input.py:412-443 | the display holds the given tags and one non-removable chip per tag |
| ThemeManager.StylesheetTokensKnown | pyqt_widgets/base/theme_manager.py:121-160 | every colour the stylesheet uses is a colour of the theme |
| Timeline.PlaceBounds | build/lib/pyqt_widgets/data/timeline.py:71-77 | inserting an event keeps every event at or after a lower bound shared by all |
| UserAvatar.Placed | pyqt_widgets/user/user_avatar.py:254-268 | every avatar is placed: the first `max_visible` moved and shown, the rest hidden |
| ProfileHeader.BusinessHeader.AddBusinessTitle | pyqt_widgets/user/profile_header.py:396-398 | a non-empty industry becomes the title, an empty one leaves it |
| ProfileHeader.BusinessHeader.AddBusinessStat | pyqt_widgets/user/profile_header.py:400-402 | a non-empty founding year is added as the "Founded" statistic |
| ProfileHeader.BusinessHeader.AddBusinessActions | pyqt_widgets/user/profile_header.py:404-406 | "Visit Website" and "Contact" are appended to the actions |
| ProfileHeader.SocialHeader.AddSocialStats | pyqt_widgets/user/profile_header.py:438-441 | on a header with no statistic, Posts, Followers and Following are added at zero |
| ProfileHeader.SocialHeader.AddSocialActions | pyqt_widgets/user/profile_header.py:443-445 | "Follow" and "Message" are appended to the actions |

## Left out

- ClipboardHistory: the image payload (`mime_data.imageData()`) stored with an image entry, the type label (content type upper-cased) and the hh:mm:ss timestamp text are not modelled; timestamps are integers given by the caller.
- ClipboardHistory: copying an entry to the clipboard raises dataChanged, which can record that entry again; the model returns the copied text and leaves the clipboard's reaction to a separate CheckClipboard call.
- ClipboardHistory: the 1-second backup timer is a call to CheckClipboard.
- Geometry-only animations held in local variables (the base card's hover bounce, the base button's click scale, the reaction bar's button pop, the empty state icon bounce) start from the current geometry and are deleted on return, so they leave nothing the model observes.
- NotificationToast: the progress toast's bar is created but never added to a layout, so it is never drawn; the model records this as a flag that stays false, and the drawing is not modelled.
- ProgressOverlay: resize-to-parent geometry and the blocking overlay's keyPressEvent (accepts every key) not modelled.
- RichTooltip: `itemAt(0).layout().setParent(None)` detachment not modelled.
- AnimatedEmptyState is not modelled: its show event calls `fade_in` (empty_state.py:336), which as written leaves the placeholder at opacity 0 every time it is shown, and its icon bounce only changes geometry; EmptyState get_title/get_message are plain accessors of title/message fields.
- QIcon pixmaps not modelled: icons are text.
- Common.Lower, Common.Upper: only ASCII letters change case. Python's `lower()` and `upper()` map every Unicode cased letter ('É' to 'é', 'ß' to "SS"), so the case-insensitive searches and filters of the model match fewer texts than the source's when the text has non-ASCII letters.
- DataTable.DataTableWidget.LoadData: the table is sortable by default and every load ends with `setSortingEnabled(True)` (pyqt_widgets/data/data_table.py:161), which sorts the rows by the header's sort indicator; later reloads call `setItem` with sorting on, which can move rows again. The model keeps the rows in `_data` order. Once a sort indicator is set, the source's row r need not be `_data[r]`, and export, selection, double-click row data and check boxes then refer to the row on screen. The editable table's write-back to another row is recorded under Findings.
- DataTable.DataTableWidget.OnItemChanged: the editable table connects `itemChanged` after its first load, so in Qt every later reload's `setItem` fires `_on_item_changed` for each cell, writing the cell's own text back into `_data` and emitting `cell_changed` and `data_changed` once per cell. The model runs the handler only for a user edit, and the table's rows stay in data order (see LoadData above).
- FormStepper.SimpleFormStepper.constructor: requires at least one title; with none the source raises `IndexError` on `titles[0]` while building the step label, and that error is not modelled.
- PropertyGrid.PropertyGridWidget.AddProperty, PropertyGrid.PropertyGridWidget.AddPropertyToGroup, PropertyGrid.UpdateWidget: a value of the wrong type for its editor (a string for a spin box, say) makes the PyQt setter raise `TypeError`; the model requires the value to fit the editor instead.
- KanbanBoard.KanbanBoardWidget.LoadBoardData: board data is typed, so each column has a title and an id and each card a title. The source reads `column_data['title']`, `column_data['id']` and `card_data['title']` with `[...]`, and a dictionary without one of them raises `KeyError`; that is not modelled.
- TreeView.TreeViewWidget.ChangeCheck: models the intended propagation, in one step with one `items_checked`. In the source every `setCheckState` that changes an item fires `itemChanged` again (tree_view.py:392), so the handler re-enters for that item in the middle of its caller's loop, and `items_checked` is emitted once per run. The end states differ. With a single child the parent just follows the child. With two or more children the cascade can overturn the user's change: checking one of two unchecked leaves ends with that leaf unchecked, its sibling partially checked and the parent unchecked (TreeView.CheckingLeafUnchecksIt; see Findings). The re-entrant run is modelled by TreeView.Handle and its companions with a fuel bound, and only that scenario is proved; whether every cascade terminates is not modelled.
- TreeView.TreeViewWidget.AddItem: in the checkable view, the `setCheckState` of a new item fires `itemChanged` in Qt and so runs the handler of check-state changes once more; the model does not.
- CommentTree.Layout: the nesting walk carries a fuel bound equal to the number of comments; that this bound is never reached on a consistent thread is not proved, so a layout that needed more steps would be cut short in the model.
- SliderWithInput: values are integers (`decimals` 0, where the input is a `QSpinBox`); the decimal scaling `value * 10**decimals`, the `QDoubleSpinBox` used with decimals, and floating-point values are not modelled. With no decimals the handlers as written hand the spin box floats, which PyQt refuses; the members marked as written model that failure and the others the intended integer handlers.
- RatingStar: `RatingDisplayWidget.update_rating`, which rounds a float average and formats it with one decimal, and `DetailedRatingWidget`, whose average is a float division, are not modelled; the star widgets hold integer ratings.
- RatingStar, ReactionBar, BadgeLabel: `get_rating`, `get_reactions`, `get_user_reactions`, `get_count` and the like return fields the model reads directly.
- ReactionBar: the picker popup's own window (placement under the add button, its grid and its closing) is not modelled; choosing an emoji is a call of the reaction bar's add-new-reaction method.
- BadgeLabel.BadgeLabelWidget.WithIcon: a `QIcon` or `QPixmap` icon is drawn as a 24-pixel pixmap in the source; the model keeps icons as text.
- ShortcutHelper: the 23 default shortcuts are data (`DefaultList`, registered by a loop in place of the 23 calls); their count of 23 and their 5 categories are not proved, because evaluating the literal list is beyond the verifier's budget.
- ShortcutHelper: `QKeySequence(event.key() | modifiers).toString()` is not modelled; key presses arrive as that text. The 300 ms search debounce is not modelled; the timer firing is a call to `PerformSearch`. Fonts, styles, expandAll and focus policy are not modelled.
- ShortcutHelper: `get_shortcuts` returns a copy of the `_shortcuts` dictionary, which is the registry's `shortcuts` field itself.
- GlobalSearch: providers are foreign callables; what each returned or that it raised for the current query is a parameter, and the filters they receive do not change that outcome in the model. Result dictionaries are values, so the in-place `result['provider'] = name` write, seen by the provider that still holds the dictionary, is not modelled, nor are the `path` and `matches` keys.
- GlobalSearch: the 300 ms debounce is a pending flag and the timer firing is a call to `TimerFires`. `get_results` is the `results` field, `_on_result_selected` emits the stored dictionary, and `focus_search`, fonts and styles are not modelled. The score label's `{:.1f}%` formatting is not modelled; only whether it is shown.
- GlobalSearch.GlobalSearchWidget.RemoveSearchProvider: when the removed entry was the current one the combo box's change signal fires again; the model leaves that re-run to a call of `FilterChanged`. The type combo's change signal is taken to fire when the current index changes.
- QuickSettings.ToInt: `int()` of a string accepts only digits with an optional leading minus; whitespace, `+` and underscores are not modelled.
- Setting values are booleans, integers, strings or `None`; floats and other objects are not modelled.
- A name added twice to the quick settings panel keeps its old widget connected; the model keeps one control per name.
- The slider's value label, the expand animation and the stylesheets of the quick settings panel are not modelled.
- A combo box emits `currentTextChanged` only when its text changes (as in Qt 6); `reset_settings` and `set_setting` emissions follow that.
- QuickSettings.QuickSettingsPanel.AddChoiceSetting: when the default index raises, the setting group has already been laid out; the model keeps no layout.
- `CompactSettingsPanel.get_settings` returns a copy of the widget dictionary; widgets are identities (`nat`) here.
- A note's creation time is kept as its ISO text; parsing an invalid or sub-second time and the "MMM dd, hh:mm" label are not modelled.
- A note dictionary's position is taken to hold both `x` and `y`; the KeyError of a position without them is not modelled.
- `get_content`, `get_color` and `get_content` of the simple note are plain reads of the fields, not separate members.
- `save_notes` only prints the data, which is `NoteManager.NotesData`; printing is not modelled.
- The note styles and `show()` are not modelled.
- A note's `note_changed`, `note_moved` and `color_changed` signals reach the manager's `_on_notes_changed`, which emits `NotesData`; the model does not chain the note's methods into the manager.
- FloatingActionButton.RadialOffset: the cosine and sine of the radial fan are tabulated for the eight 45-degree steps, truncated toward zero, rather than computed in floating point.
- AnimatedFAB is not modelled: its rotation animation targets a property a push button does not have, and its enter/leave scaling only changes the drawn geometry.
- MiniFAB is the FAB built with size 40; its style is not modelled.
- A collapse animation hides its button when it finishes; an expansion started before that is not modelled (the model takes every animation to have finished).
- A FAB without a parent gives its sub-buttons no parent either; their placement as top-level windows is not modelled.
- A sub-button detached by `set_context` keeps its pending collapse animation; the model drops it from the list at once.
- An avatar's initials background colour is not modelled: it depends on Python's per-process `hash()`, and the primary theme colour is used for an empty name.
- Image loading, scaling and the circular mask are not modelled; whether a path loads is a parameter.
- AnimatedAvatar is not modelled: it only scales the drawn geometry by 2 pixels on hover.
- UserAvatar.AvatarGroup: `max_visible` is a natural number; a negative one (which makes `_update_positions` index from the end and can raise) is not modelled.
- A group's count avatars are kept as their text and position; their style is not modelled.
- UserListItem: the getters (`get_name`, `get_role`, `get_email`, `get_team`, `get_phone`, `is_selected`) are the fields themselves; fonts, colours and style sheets are not modelled.
- UserListItem.CompactItem: `self.layout().setParent(None)` leaves the first layout owned by a temporary Python wrapper that is then collected, while the row still refers to it; what Qt then does with the row's other children (the avatar and the role label) is not modelled, only that the name label leaves the screen.
- UserListItem.Contact.SetPhone: the phone line is kept as built; like the team line it is not updated, and no intended version is given.
- UserListItem.UserList: rows are compared by object; a row removed from the list stays connected, so its clicks still reach the list if it is ever shown again.
- ProfileHeader: fonts, style sheets, margins and the banner picture's loading are not modelled; the banner is the path or the gradient it shows.
- ProfileHeader.Header.SetLocation, ProfileHeader.Header.SetBanner: the source changes only the stored field (its comment says so), and so does the model; the location line and the banner keep what they were built with.
- ProfileHeader.BusinessHeader.SetFounded: the "Founded" statistic keeps its old value, as in the source.
- ProfileHeader: `get_name` and `get_username` return the stored fields, read directly in the model.
- ProfileHeader.Header: the statistics' keys stay distinct because every change goes through `Put`; the class does not carry that as an invariant.
- Rendering: style sheets (other than the theme's own `get_stylesheet`), fonts, margins, spacing, shadows and paint events (the step indicator's painter, the toggle switch's painter, the timeline's connector painter) are not modelled; the model keeps the fields they read.
- Timers: every timer (debounces, auto-close, auto-dismiss) is a pending flag with an explicit step for its firing; fades and slides are modelled by the value they leave behind, as described under "How the runtime is modelled".
- Files and the operating system: the data table's CSV file dialog and file writing (ExportData returns the lines it would write), the file breadcrumb bar's `os.path` handling, the file tree's `_load_file_system`, and file and colour dialogs are not modelled.
- Floating point: the slider's decimal scaling, the toggle thumb's pixel position and the property grid's 3-decimal float editors are not modelled; float values carry the text `str()` gives for them.
- Dates: `QDate` and `QDateTime` arithmetic and formatting are not modelled; dates are day numbers, timestamps whole numbers, and today, the first day of the month and the current time are parameters.
- ThemeManager: there is no way to add a theme; `set_theme` ignores a name outside the two built-in themes, and `get_color`, `get_spacing` and `get_border_radius` fall back to "#000000", 8 and 4 for an unknown token (theme_manager.py:95-119). The model states exactly these fallbacks; the `QFont()` fallback of `get_font` is left out with fonts.
- Build copies: where a file exists both under `pyqt_widgets/` and under `build/lib/pyqt_widgets/`, the model follows one copy, named in its rows.
- InlineEditLabel: a caller-supplied validator is code the widget only calls; its verdict is a parameter. The e-mail, number, phone and URL validators are the widget's own and are modelled.
- PropertyGrid: Python's cross-type equality (`True == 1 == 1.0`) in `options.index`, edits inside group rows, the empty `_reset_properties`, object truthiness through `__bool__` or `__len__`, and `ObjectPropertyGrid`'s reflection through `dir` and `getattr` (the attributes arrive as a list of named values) are not modelled.
- SearchBoxSuggestions: `set_suggestions` keeps the caller's list object in the source (search_box_suggestions.py:174), and the sharing works both ways. A later change the caller makes to that list shows in the box. `add_suggestion` appends to the caller's list and `clear_suggestions` empties it (lines 179, 183). In the categorized box, choosing a category hands the box that category's stored list (line 365), so a suggestion added afterwards joins the category for good, and clearing empties the category. The model copies the values, so none of this sharing is modelled.
- FormStepper: the content stack holding each step's widget is not modelled; only the index of the current step is.
- TreeView: item icons and item data are not modelled; items are values addressed by their path, so two views never share an item.
- KanbanBoard: object identities (`id()`) are drawn from a counter of the objects the board has made, so they are non-zero and distinct but not Python's numbers.
- DockablePanel: the cursor position, the screen centre and the panel's size are parameters of the methods that read them.
- DataTable.DataTableWidget.LoadData: the current row kept by Qt across a reload that removes rows is approximated by moving it to the new last row.
- ThemeManager: `get_font` (fonts are not modelled), `get_current_theme` (the `currentTheme` field) and the unused `widget_type` argument of `get_stylesheet` have no members of their own.
- BaseCard: the bounce animation on entering and the selection style sheet are not modelled; `is_selected` is the `selected` field.
- BaseButton: the click animation, `set_icon` (icons are not modelled) and the style sheets are not modelled; `is_checked` and `get_active_button` are the `checked` and `active` fields.
- BasePopup: `show_at_cursor` (the cursor is outside the model), a menu action's callback and icon, and the style sheets are not modelled. The fades are modelled by the opacity they leave behind: the animation object is deleted when `fade_in`/`fade_out` returns, so the popup keeps the start value (0 after showing, full after `close_animated`) and `closed` never fires.
- BasePopup.Popup.MousePress: whether the press lies outside the content is a parameter. In Qt a press delivered to the popup lies inside its own `rect()`, so in the source the backdrop close does not happen; the model states the rule the code spells out.
- SelectableCard: the selection style sheets, `get_title`/`get_subtitle`/`get_count`/`get_filter_name` (fields) and `OptionCard`'s `get_value`/`set_value` (an opaque value the card only stores) have no members of their own.
- ExpandableCard: the height animations and style sheets are not modelled (the content is shown or hidden at once); `is_expanded`, `get_title`, `is_completed` and `get_step_number` are fields.
- HoverActionCard: QuickActionCard (hover_action_card.py:154-206) only builds an icon label, a bold title and a fixed 120x100 size, all rendering; the slide animation of the action bar (kept in a field, so it completes) changes only geometry, and the progress bar drawn for a positive progress, the thumbnail pixmap and the get_status/get_progress getters are not modelled.
- InfoCard: the icon pixmap and fonts are not modelled (the icon is a flag); `get_title`, `get_subtitle`, `get_description` and `get_status` are fields; the header's visibility follows the base card's flag rather than Qt's on-screen state.
- ProfileCard: `CompactProfileCard` (profile_card.py:226-284) only lays the same labels out smaller and is not modelled; the circular pixmap, fonts and the role and email labels (kept as fields) are rendering; `get_name`, `get_role`, `get_email` and `get_status` are fields.
- ImageCard: the pixmap scaling, the overlay's position on resize and the style sheets are rendering; the `get_*` methods are fields; a rating is a `real` and `int(rating)` is its floor, which agrees with Python's truncation for the positive ratings that get a label.
- DataTable.DataTableWidget.Paged: requires a non-zero page size when the table has columns and rows. With a zero size, the corrected constructor's first load would raise `ZeroDivisionError`; that error is modelled by `SetPageSize` and `ChangePage`, not by this constructor.
- SliderWithInput.SliderWithInputWidget.SetRange, FollowLimits and SliderLimit model the intended slider handler. As written, a limit change that moves the slider runs `_on_slider_changed`, which raises as in OnSliderChangedAsWritten and leaves the guard set; the set_value at the end of set_range clears it only when the value is still outside the new limits. The as-written sequence is not modelled member by member.
- SliderWithInput.RangeSliderWidget.DragMin and DragMax model the intended slider handler. As written, a drag runs the failing handler of SliderWithInputWidget.SlideToAsWritten, value_changed does not fire, and the range stays as it was.
- Slots that raise: where the source raises inside a handler or constructor, the model stops at the raise, reports the error with a flag (`typeError`, `attributeError`, …) and keeps the state reached by then. What PyQt does next is not modelled: by default an unhandled exception in a slot aborts the application, and an application with its own exception hook carries on from that state.
- Tooltip.TooltipManagerIntended.RemoveTooltip: removing the widget whose tooltip is current leaves that tooltip shown and current; the contract states it.
- Tooltip.TooltipManager: the as-written manager has no Enter, Leave or hover-timer steps, because its event filter can never be installed; the module-level `set_tooltip` and `remove_tooltip` only forward to one global manager.
- AccordionMenu.AccordionMenuWidget.ExpandNow, AccordionMenu.AccordionMenuWidget.CollapseNow: the expanded flag, arrow text and section_toggled event are modelled, the content container's visibility and height are not. As written both height animations are locals deleted on return (accordion_menu.py:236-246, 266-276): an expanded section's content is shown with a fixed height of 0, so its items cannot be seen, and a collapsed section's content keeps its height and is never hidden. The same holds for every member that calls them (ToggleSection, ExpandSection, CollapseSection, CollapseOthersLoop).
- Common.TitleCase: ASCII only. A non-ASCII letter is left unchanged and counts as a non-letter, while Python's `str.title()` cases every Unicode letter and counts it as a letter, so "élan" gives "éLan" here and "Élan" in Python. Its callers inherit this: HoverActionCard.ProjectCard.constructor, HoverActionCard.ProjectCard.SetupProjectUi, HoverActionCard.ProjectCard.SetStatus, HoverActionCard.ProjectCard.SetProgress and GlobalSearch.GlobalSearchWidget.AddSearchProvider.
- InlineEdit.PhoneValid: `\d` in Python's `re` matches every Unicode decimal digit, not just 0-9, so `_validate_phone` also accepts numbers written in other scripts (for example Arabic-Indic digits); the model counts only the ASCII digits (`Common.IsDigit`), and InlineEdit.Accepts and InlineEdit.PhoneValidCounts inherit this.
- SliderWithInput.SliderWithInputWidget, SliderWithInput.RangeSliderWidget, SliderWithInput.SimpleSliderInput, QtRange.RangeControl and QuickSettings.QuickSettingsPanel (AddNumberSetting, AddSliderSetting, SetSetting, SetSettings): the values and limits are unbounded integers. Qt's QSlider and QSpinBox take a 32-bit int, and PyQt raises OverflowError for a Python int outside -2147483648..2147483647; that error path is not modelled.
- InlineEdit.NumberValid: Python's `float()` also accepts decimal digits of other scripts (Unicode category Nd); the model accepts only ASCII digits, so such texts are rejected by the model and accepted by the source.
- BreadcrumbBar.BreadcrumbBarWidget.SetPaths: `set_paths` keeps the caller's list object itself (breadcrumb_bar.py:57), so later changes the caller makes to that list show up at the next rebuild; the model stores a value copy.
- ImageCard.GalleryCard.SetImages: `set_images` keeps the caller's list object itself (image_card.py:251), so the caller's later changes alter the gallery; the model stores a value copy.
- StatusChip.StatusChipGroup.AddChip: `add_chip` returns the chip widget it stored (status_chip.py:293), which the caller can then change behind the group's back; the model returns nothing and keeps each chip as a value.
- ToggleSwitch.ToggleSwitchGroup.AddSwitch: adding a name a second time replaces the dictionary entry only; the earlier switch stays in the layout, shown and still connected, so toggling it reports the current switches' states (toggle_switch.py:283-289). The model keeps no layout, so the replaced switch disappears from it.
- AccordionMenu.AccordionMenuWidget.AddSection, SidebarNav.SidebarNavWidget.AddItem, InlineEdit.InlineEditGroup.AddEditor, QuickSettings.QuickSettingsPanel.AddToggleSetting (and AddChoiceSetting, AddNumberSetting, AddSliderSetting), QuickSettings.CompactSettingsPanel.AddSetting: a name added twice replaces the dictionary entry only, and the earlier widget stays in the layout and connected (accordion_menu.py:55, sidebar_nav.py:154, inline_edit_label.py:304, quick_settings_panel.py:204-306, quick_settings_panel.py:443). The model keeps the dictionaries and drops the stale widgets.

## Findings

| source | as written | input that shows it | evidently intended | confidence | as-written member | corrected member |
|---|---|---|---|---|---|---|
| pyqt_widgets/data/data_table.py:350-355 | PaginatedDataTable.__init__ calls the base constructor, whose _setup_ui runs the overriding _load_data, before _setup_pagination creates self.pagination | PaginatedDataTable(["a"], [["1"]]) | the bar exists before the first load, so a table with rows shows page 1 | high (not executed) | DataTable.NewPaginatedAsWritten | DataTable.DataTableWidget.Paged |
| build/lib/pyqt_widgets/data/timeline.py:272-275 | set_orientation re-runs _setup_ui, whose QVBoxLayout(self) is refused because the widget already has a layout, so the new scroll area and timeline container are never shown | any set_orientation(Qt.Orientation.Horizontal) on a timeline with events | the timeline on screen is laid out again in the new orientation | medium (not executed) | Timeline.TimelineWidget.SetOrientation, Timeline.StaleAfterOrientation | Timeline.TimelineWidget.SetOrientationIntended |
| build/lib/pyqt_widgets/data/timeline.py:336 | CompactTimeline's mousePressEvent lambda names its parameter event, shadowing the event dictionary, and emits the QMouseEvent through the dict signal | a mouse press on any CompactTimeline card | the card emits its event dictionary | high (not executed) | Timeline.TimelineWidget.ClickCard | Timeline.TimelineWidget.ClickCardIntended |
| pyqt_widgets/navigation/tab_bar.py:355-364 | TabbedContainer.add_tab registers the widget only after the bar's add_tab has emitted tab_clicked for a first tab, so the handler finds no widget to show and the widget is then hidden | add_tab("a", w) on an empty container | the first tab's widget is shown, since that tab is active | high (not executed) | TabBar.FirstTabContentStaysHidden | TabBar.SyncedTabbedContainer.AddTab |
| pyqt_widgets/navigation/tab_bar.py:366-388 | closing the active tab emits tab_clicked for the new active index before tab_closed re-keys the widget map, so the closed tab's widget is shown and then detached | tabs "a", "b" with "a" active, then close_tab(0) | the widget of the tab that becomes active is shown | high (not executed) | TabBar.ClosingActiveFirstTabHidesContent | TabBar.SyncedTabbedContainer.CloseTab |
| pyqt_widgets/forms/search_box_suggestions.py:103-107 | the text-changed handler hides the list whenever the text is shorter than min_chars, right after the advanced box's filter showed the recent searches for an empty text | an advanced box with recent searches and min_chars 1, emptied | emptying the box shows the recent searches | medium (not executed) | SearchBoxSuggestions.RecentSearchesHiddenWhenEmptied | SearchBoxSuggestions.IntendedShowsRecentWhenEmptied |
| pyqt_widgets/forms/inline_edit_label.py:271-277 | the phone check accepts any whitespace through `\s` but removes only plain spaces before counting, so other whitespace counts as digits | ten tab characters | at least ten digits are required | high (not executed) | InlineEdit.TabsPassAsPhone | InlineEdit.IntendedPhoneValidSpec |
| pyqt_widgets/user/comment_thread.py:418-540 | add_comment and _post_comment number new comments `str(len(self._comments))`, which after a deletion repeats an id still in use, so the new comment overwrites that one | add two comments, delete "0", add a third | every new comment gets an id not in use | high (not executed) | CommentThread.CommentThreadWidget.AddCommentAsWritten, CommentThread.CommentThreadWidget.PostComment, CommentTree.AsWrittenIdCollides | CommentThread.CommentThreadWidget.AddComment, CommentThread.CommentThreadWidget.PostCommentIntended |
| build/lib/pyqt_widgets/user/reaction_bar.py:98-102 | a new reaction button goes to max(0, count - 2), which assumes the add button and the stretch follow; the first display runs before they exist, and the simple bar has only the stretch | ReactionBarWidget({"a": 1, "b": 1}) shows b before a; SimpleReactionBar(likes=1, dislikes=1) shows 👎 before 👍 | the buttons appear in dictionary order, as on every later refresh of the full bar | high (not executed) | ReactionBar.FirstDisplayReversed, ReactionBar.SimpleBarReversed | ReactionBar.ReactionBarWidget.UpdateDisplayIntended |
| pyqt_widgets/user/rating_star.py:130-143 | set_max_stars detaches the old stars and re-runs _setup_ui, whose QHBoxLayout(self) Qt refuses because the widget already has a layout, so the new stars are never shown | RatingStarWidget(5, 3).set_max_stars(10) | the widget shows the new number of stars in its layout | medium (not executed) | RatingStar.RatingStarWidget.SetMaxStars, RatingStar.StarsHiddenAfterSetMaxStars | RatingStar.RatingStarWidget.SetMaxStarsIntended, RatingStar.StarsShownAfterSetMaxStarsIntended |
| pyqt_widgets/data/data_table.py:159-339 | with sorting on, the table can list the rows in another order than _data, but the editable table writes an edit of table row r into _data[r] | EditableDataTable(["n"], [["a"], ["b"]]) shown as "b" above "a" by the header sort, then the top cell edited to "c" | the edit reaches the data row the table row shows | medium (not executed) | DataTable.DataTableWidget.OnItemChanged, DataTable.SortedEditWritesOtherRow | DataTable.WriteBackIntended |
| build/lib/pyqt_widgets/feedback/status_chip.py:226-237 | set_icon on a chip without an icon label re-runs _setup_ui, whose QHBoxLayout(self) Qt refuses because the chip already has a layout, so the rebuilt labels are never shown and later set_text/set_status change only them | StatusChipWidget("Draft", "draft").set_icon("✓") then set_text("Published") | the chip shows the icon and then the new text | medium (not executed) | StatusChip.StatusChipWidget.SetIcon, StatusChip.IconFreezesChip | StatusChip.StatusChipWidget.SetIconIntended |
| build/lib/pyqt_widgets/feedback/snackbar.py:94-200 | once a snackbar's close completes (as written none does, see snackbar.py:117-141, so this shows only with the intended close), a snackbar closed by its × or action button keeps its auto-dismiss timer, which later closes it again and emits closed a second time; _on_snackbar_closed does not check which snackbar closed, so it drops the next snackbar while that one is still on screen | show_snackbar("a"), show_snackbar("b"), close "a" by its × button, wait for "a"'s 4000 ms timer, show_snackbar("c") | only the current snackbar's closing moves the queue on, so "b" stays current and "c" waits | medium (not executed) | Snackbar.SnackbarManager.SnackbarClosed, Snackbar.StaleTimerShowsTwo | Snackbar.SnackbarManager.SnackbarClosedIntended, Snackbar.StaleTimerIntended |
| pyqt_widgets/feedback/notification_toast.py:5-184 | show_toast calls QApplication.instance(), but the module imports only QWidget, QHBoxLayout, QVBoxLayout, QLabel and QPushButton from PyQt6.QtWidgets, so every call raises NameError; ToastManager.show_toast has by then listed the toast, which is never shown | any ToastManager().show_toast("Saved") | the toast slides in at its position | high (not executed) | NotificationToast.NotificationToastWidget.ShowToast, NotificationToast.ToastManager.ShowToast | NotificationToast.NotificationToastWidget.ShowToastAt, NotificationToast.ToastManager.ShowToastIntended |
| pyqt_widgets/feedback/notification_toast.py:182-284 | _position_toast stores the stacking offset in toast._position_offset, but show_toast never reads it, so toasts at one position cover each other | two show_toast("…", position="top-right") calls with toasts 60 pixels high | the second toast shows 70 pixels below the first | medium (not executed) | NotificationToast.NotificationToastWidget.ShowToastAt, NotificationToast.SecondToastCoversFirst | NotificationToast.ToastManager.ShowToastIntended, NotificationToast.StackedPoint |
| pyqt_widgets/feedback/progress_overlay.py:203-339 | an overlay driven to 100 schedules its own hide_overlay, which does not tell the manager, so is_showing_progress still answers True for its widget (and as written that hide_overlay does not even hide it, see progress_overlay.py:182-196) | show_progress(w), update_progress(w, 100), then 500 ms later is_showing_progress(w) | a completed overlay is no longer reported as showing | medium (not executed) | ProgressOverlay.ProgressOverlayManager.AutoHideFires, ProgressOverlay.CompletedOverlayStillListed | ProgressOverlay.ProgressOverlayManager.UpdateProgressIntended, ProgressOverlay.CompletedOverlayIntended |
| pyqt_widgets/feedback/empty_state.py:127-297 | set_message and set_icon on a widget without that label call _setup_ui again; its QVBoxLayout(self) is refused because the widget already has a layout, so the new labels and action container get no parent; the labels never appear, and the next add_action shows the container as a separate top-level window whose buttons still emit action_clicked | CustomEmptyState().set_content("Empty", "Nothing here", "📭", [("Add", "add")]) | message, icon and the Add button are shown in the placeholder, and no other window opens | medium (not executed) | EmptyState.EmptyStateWidget.SetMessage, EmptyState.EmptyStateWidget.SetupAgain, EmptyState.CustomContentHidden | EmptyState.EmptyStateWidget.SetMessageIntended, EmptyState.CustomContentIntended |
| pyqt_widgets/utility/shortcut_helper.py:241-396 | add_shortcut appends the name to its category list even when it is already there, and remove_shortcut takes out only one occurrence, so a re-added name stays listed after its removal and _update_tree and export_shortcuts raise KeyError | add_shortcut("x", "Ctrl+1", "a", "A") twice, remove_shortcut("x"), export_shortcuts() | removing a shortcut removes every listing of it, and the export succeeds | medium (not executed) | ShortcutHelper.Remove, ShortcutHelper.ReAddThenRemoveUnlisted | ShortcutHelper.RemoveIntended, ShortcutHelper.RemoveIntendedConsistent |
| pyqt_widgets/utility/shortcut_helper.py:482-492 | keyPressEvent sets the label to "Captured: {key}" and then calls stop_capture, which at once resets it to "Press keys to capture shortcut...", so the captured key is never shown | start_capture(), then press Ctrl+K | the label reads "Captured: Ctrl+K" | low (not executed) | ShortcutHelper.ShortcutCapture.KeyPress | ShortcutHelper.ShortcutCapture.KeyPressIntended |
| pyqt_widgets/utility/global_search.py:251-344 | in a widget whose type filter is connected as intended (as written the constructor fails first, see global_search.py:132), clear_search first clears the input, whose textChanged("") handler calls clear_search again, so one click on the clear button emits search_cleared twice | type "abc", click × | search_cleared is emitted once per clear | low (not executed) | GlobalSearch.GlobalSearchWidget.ClearSearch | GlobalSearch.GlobalSearchWidget.ClearSearchIntended |
| pyqt_widgets/utility/pinned_note.py:194-332 | a note's Duplicate menu entry hands the note to `self.parent()` when it has `duplicate_note`; the manager creates its notes with the plain `notes_area` widget as parent | any note added by `NoteManager.add_note`, then Duplicate chosen from its menu: nothing happens | the manager duplicates the note | high (not executed) | PinnedNote.NoteManager.MenuDuplicate | PinnedNote.NoteManager.MenuDuplicateIntended |
| pyqt_widgets/utility/pinned_note.py:329-363 | `add_note` tests `if position:`, and PyQt counts a null `QPoint` as false | duplicating a note at (-20, -20) asks for (0, 0) and gets a random place instead | any given position is used | medium (not executed) | PinnedNote.PlacementNullPoint | PinnedNote.PlacementIntended |
| pyqt_widgets/user/user_avatar.py:49-184 | every `_update_avatar` adds a new status dot and none is ever removed | `set_status("online")` then `set_status("")`: the green dot stays | the avatar shows the dot of its current status only | high (not executed) | UserAvatar.Avatar.SetStatus | UserAvatar.Avatar.SetStatusIntended |
| pyqt_widgets/user/user_avatar.py:241-285 | the group is `size + (max_visible-1)*(size - size//3)` wide but the count avatar sits at `max_visible*(size - size//3)` | `AvatarGroup(4, 32)` with five avatars: 98 pixels wide, "+1" at x = 88, so 10 of its 32 pixels show | the group is wide enough for the count avatar | medium (not executed) | UserAvatar.CountClipped | UserAvatar.GroupWidthIntended |
| pyqt_widgets/user/user_avatar.py:274-301 | `clear_avatars` detaches the avatars it lists, but the count avatars are not in that list | `AvatarGroup(4)`, five `add_avatar` calls, then `clear_avatars()`: "+1" stays on screen | clearing removes the count avatars too | high (not executed) | UserAvatar.AvatarGroup.ClearAvatars | UserAvatar.AvatarGroup.ClearAvatarsIntended |
| pyqt_widgets/user/user_list_item.py:223-226 | `set_team` stores the team but leaves the team line as built | `TeamMemberItem(team="A")`, then `set_team("B")`: `get_team()` is "B" and the line reads "Team: A" | the team line shows the current team, as the method's own comment says | high (not executed) | UserListItem.StaleTeamLine | UserListItem.TeamMember.SetTeamIntended |
| pyqt_widgets/user/profile_header.py:100-102 | the statistics section is built only if `_stats` is non-empty when the header is constructed, which it never is, and `add_stat` (254-261) does not rebuild it | a social header: its three counts are stored but none is on screen | `add_stat` rebuilds the section, so the statistics added show | high (not executed) | ProfileHeader.SocialStatsHidden | ProfileHeader.SocialStatsShownIntended |
| pyqt_widgets/navigation/pagination.py:264-276 | set_mode detaches the old controls and re-runs _setup_ui, whose QHBoxLayout(self) Qt refuses because the widget already has a layout, so the new controls are never shown | PaginationWidget(mode="numeric", total_pages=10, current_page=3).set_mode("simple") | the widget shows the new mode's controls | medium (not executed) | Pagination.PaginationWidget.SetMode, Pagination.ControlsHiddenAfterSetMode | Pagination.PaginationWidget.SetModeIntended, Pagination.ControlsShownAfterSetModeIntended |
| build/lib/pyqt_widgets/forms/toggle_switch.py:96-102 | setText on a switch built without a caption re-runs _setup_ui, whose QHBoxLayout(self) Qt refuses because the switch already has a layout, so the new caption label is never shown | ToggleSwitchWidget().setText("Wi-Fi") | the switch shows its caption beside the track | medium (not executed) | ToggleSwitch.ToggleSwitchWidget.SetText, ToggleSwitch.CaptionHiddenAfterSetText | ToggleSwitch.ToggleSwitchWidget.SetTextIntended, ToggleSwitch.CaptionShownAfterSetTextIntended |
| build/lib/pyqt_widgets/navigation/dockable_panel.py:358-410 | TabbedDockingArea and SplitterDockingArea detach the first layout with self.layout.setParent(None), which does not unset it as the widget's layout, so the QVBoxLayout(self) meant to hold the tab container or the splitter is refused and neither is ever shown | TabbedDockingArea().add_panel(DockablePanelWidget("Files")); likewise SplitterDockingArea() | the tab container or splitter replaces the first layout and shows the panels added | medium (not executed) | DockablePanel.TabbedDockingArea.constructor, DockablePanel.SplitterDockingArea.constructor, DockablePanel.TabbedPanelHidden, DockablePanel.SplitPanelHidden | DockablePanel.TabbedDockingArea.Intended, DockablePanel.SplitterDockingArea.Intended, DockablePanel.TabbedPanelShownIntended, DockablePanel.SplitPanelShownIntended |
| pyqt_widgets/user/user_list_item.py:184-197 | `_setup_compact_ui` detaches the first layout with `self.layout().setParent(None)` and builds `QHBoxLayout(self)`, which Qt refuses because the row still has a layout; `self.name_label.setParent(None)` then puts the name into that unattached layout | `CompactUserListItem("Ada", "Engineer")` | the compact layout replaces the first one and the name is shown beside the avatar | medium (not executed) | UserListItem.CompactNameHidden | UserListItem.CompactNameShownIntended |
| pyqt_widgets/forms/tag_input.py:344 | `_setup_category_ui` connects `self.category_combo.currentDataChanged`, a signal `QComboBox` does not have, so the constructor raises AttributeError and `_on_category_changed` is never connected | `CategoryTagInput({"lang": ["py"]})` | the category combo box drives the suggestions through `currentIndexChanged` and the picked item's data | high (not executed) | TagInput.NewCategoryTagInput | TagInput.CategoryTagInput.SelectCategory |
| pyqt_widgets/utility/global_search.py:132 | `_setup_ui` connects `self.type_filter.currentDataChanged`, a signal `QComboBox` does not have, so the constructor raises AttributeError and no search widget can be made | `GlobalSearchWidget()` | the type filter re-runs the search through `currentIndexChanged`, as the filter checkboxes do through `toggled` | high (not executed) | GlobalSearch.NewGlobalSearchWidget | GlobalSearch.GlobalSearchWidget.SelectType |
| build/lib/pyqt_widgets/forms/date_range_picker.py:200 | `_setup_calendar_ui` builds its layout on `self.content_widget`, but `BasePopupWidget` (base_popup.py:17-41) creates no such attribute, so every `DateRangeCalendarPopup(...)` raises AttributeError; the picker's calendar buttons therefore never open a popup | click the start date field of a `DateRangePickerWidget` | the calendar, presets and buttons are laid out in the popup and the popup opens below the picker | high (not executed) | DateRangePicker.NoCalendarAfterShow | DateRangePicker.CalendarOpensIntended |
| pyqt_widgets/forms/slider_with_input.py:172-176 | `_on_slider_changed` computes `value / (10 ** self._decimals)`, a float even with no decimals, and passes it to a `QSpinBox`, whose `setValue` accepts only an int, so PyQt raises TypeError with `_updating` still True; from then on both handlers return at once and value_changed never fires | a `SliderWithInputWidget()` on 0..100 at 50: drag the slider to 60, then type 70 | the spin box follows the slider, value_changed fires once per move, and the slider follows the spin box | high (not executed) | SliderWithInput.SliderGoesSilent | SliderWithInput.SliderFollowsIntended |
| pyqt_widgets/forms/slider_with_input.py:295-311 | the range slider's handlers receive `value_changed`'s float and pass it to the other end's `set_value`, whose integer spin box raises TypeError before the moved end is stored or `range_changed` is emitted | a `RangeSliderWidget()` at 20..80: type 90 in the lower spin box | the upper end is pushed to 90 and range_changed reports 90..90 | high (not executed) | SliderWithInput.RangeCrossingAsWritten | SliderWithInput.RangeCrossingIntended |
| build/lib/pyqt_widgets/data/kanban_board.py:434 | `card_created` is declared `pyqtSignal(str, dict)`, but `add_column`'s lambda (382) passes `column.get_column_id()`, which is the int `id(self)` for a column made without an id (139), so the emit raises TypeError | `board.add_column("To do")`, then click that column's "+" | `card_created` carries the column id as text, as `card_dropped` does with `str(self._column_id)` (248) | high (not executed) | KanbanBoard.CardRequestFails | KanbanBoard.CardRequestIntended |
| build/lib/pyqt_widgets/feedback/snackbar.py:117-141 | show_snackbar and close_animated keep their QPropertyAnimation in a local variable with no parent, so it is deleted when the method returns; start() has already applied the start value, so the snackbar sits at y = screen.height(), the bottom edge of the available area, and the close never finishes, so close() and closed never run | show_snackbar("a"), show_snackbar("b"), then close_current() (or the × button, or the 4000 ms timer) | the bar slides up to 80 pixels above the bottom, the close hides it and emits closed, and the manager shows "b" | high (not executed) | Snackbar.SnackbarWidget.Show, Snackbar.SnackbarWidget.CloseAnimated, Snackbar.SnackbarManager.CloseCurrent, Snackbar.QueueStuck | Snackbar.SnackbarWidget.ShowIntended, Snackbar.SnackbarWidget.CloseAnimatedIntended, Snackbar.SnackbarManager.CloseCurrentIntended, Snackbar.QueueMovesIntended |
| build/lib/pyqt_widgets/base/base_popup.py:53-96 | show_at_position calls fade_in and close_animated calls fade_out, and both helpers return a QPropertyAnimation with no parent that the caller drops, so it is deleted at once; start() has already applied the start value, so a shown popup sits at opacity 0 and a closing one at opacity 1, and on_fade_complete (close, closed.emit) never runs | CommandPaletteWidget().show_palette(), then Escape; or ToastPopup("hi").show_toast() and wait for its timer | shown popups fade in to full opacity; close_animated fades out, hides the popup and emits closed | high (not executed) | BasePopup.Popup.ShowAtPosition, BasePopup.Popup.CloseAnimated, BasePopup.PopupNeverSeenThenStuck | BasePopup.Popup.ShowAtPositionIntended, BasePopup.Popup.CloseAnimatedIntended, BasePopup.PopupSeenThenClosedIntended |
| pyqt_widgets/feedback/tooltip.py:186-214 | TooltipManager is a plain Python class, yet set_tooltip calls widget.installEventFilter(self) and remove_tooltip calls widget.removeEventFilter(self), which accept only a QObject; both raise TypeError, after set_tooltip has stored the tooltip, so eventFilter never runs and no tooltip is ever shown | set_tooltip(button, "Save"), then set_tooltip(button, "Save file"), then hover the button | TooltipManager derives from QObject, so hovering shows the tooltip after its delay and a second set_tooltip replaces the first | high (not executed) | Tooltip.TooltipManager.SetTooltip, Tooltip.TooltipManager.RemoveTooltip, Tooltip.ManagerNeverShows | Tooltip.TooltipManagerIntended.SetTooltip, Tooltip.TooltipManagerIntended.HoverTimerFires, Tooltip.OneTooltipAtATimeIntended |
| pyqt_widgets/feedback/progress_overlay.py:182-196 | show_overlay ends with fade_in and hide_overlay with fade_out(self, 200, self.hide); both drop the returned QPropertyAnimation, which has no parent and is deleted at once, after start() has set the opacity effect to its start value; so the overlay sits at opacity 0 while it runs, and hide_overlay turns it fully opaque and never hides it | show_loading(w), then hide_loading(w) | the overlay fades in to full opacity while working and fades out and hides when done | high (not executed) | ProgressOverlay.ProgressOverlayWidget.ShowOverlay, ProgressOverlay.ProgressOverlayWidget.HideOverlay, ProgressOverlay.ProgressOverlayManager.HideProgress, ProgressOverlay.CompletedOverlayStillListed | ProgressOverlay.ProgressOverlayWidget.ShowOverlayIntended, ProgressOverlay.ProgressOverlayWidget.HideOverlayIntended, ProgressOverlay.ProgressOverlayManager.HideProgressIntended, ProgressOverlay.CompletedOverlayIntended |
| pyqt_widgets/cards/hover_action_card.py:115-147 | _show_actions and _hide_actions call fade_in/fade_out, which create a parentless QPropertyAnimation the caller drops, so it is deleted on return after start() has applied its start value: the shown bar is left at opacity 0, and the hide leaves it at opacity 1 and never calls hide() | a card with one action: enter, leave, enter | the action bar fades in on hover and fades out and hides on leave | high (not executed) | HoverActionCard.HoverActionCardWidget.ShowActions, HoverActionCard.HoverActionCardWidget.HideActions, HoverActionCard.ActionsAppearOnLeave | HoverActionCard.HoverActionCardWidget.ShowActionsIntended, HoverActionCard.HoverActionCardWidget.HideActionsIntended, HoverActionCard.ActionsFollowHoverIntended |
| pyqt_widgets/forms/form_stepper.py:112-182 | remove_step can empty the form; _update_navigation then returns at once for an empty form, leaving the Finish button shown if the removed step was the last, and _finish_form reads self._steps[self._current_step] with no step left | add_step("Account", widget), remove_step(0), then a click on Finish | an emptied form offers no Finish button, or finishing it does nothing | high (not executed) | FormStepper.FormStepperWidget.FinishForm, FormStepper.EmptiedFormFinishFails | FormStepper.FormStepperWidget.RemoveStepIntended, FormStepper.FormStepperWidget.UpdateNavigationIntended, FormStepper.EmptiedFormNoFinishIntended |
| pyqt_widgets/navigation/command_palette.py:153-187 | clear_commands empties _commands and redraws the list, but the redraw walks _filtered_commands, which still holds the commands listed before, so they stay on screen and can still be executed | add_command("save", …), show_palette(), clear_commands(), then Return | the palette shows no command after clear_commands | medium (not executed) | CommandPalette.CommandPaletteWidget.ClearCommands | CommandPalette.CommandPaletteWidget.ClearCommandsIntended |
| pyqt_widgets/utility/pinned_note.py:294-326 | the Add Note button's clicked signal is connected to add_note, whose first parameter is content, so PyQt passes the checked flag False as the content; PinnedNoteWidget stores it and setPlainText(False) at line 107 raises TypeError | a click on Add Note | a click adds a note reading "New note" | high (not executed) | PinnedNote.NoteManager.ClickAddNoteButton | PinnedNote.NoteManager.ClickAddNoteButtonIntended |
| build/lib/pyqt_widgets/data/tree_view.py:392-432 | the check-state handler calls setCheckState on children and parents while connected to itemChanged, so each change re-enters the handler before the outer loop finishes; a parent's intermediate partially checked state is pushed back down onto the leaves | a folder with two unchecked leaves; the user checks the first leaf | the leaf stays checked, its sibling unchanged, the folder partially checked | high (not executed) | TreeView.SetCheckState, TreeView.CheckingLeafUnchecksIt | TreeView.ApplyCheck, TreeView.CheckingLeafIntended, TreeView.TreeViewWidget.ChangeCheck |
