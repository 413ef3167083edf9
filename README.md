# bw2ui browser and controller, modelled in Dafny

This project models the command-line part of bw2ui, the user interface of
the Brightway2 life-cycle assessment framework. It has two pieces.

- **The activity browser** (`ActivityBrowser`, a `cmd.Cmd` shell). It
  navigates projects, databases and activities through numbered, paged
  option lists. It keeps an append-only history and, with autosave on,
  writes its selection and its last ten history entries to the
  preferences (`config.p`).
- **The controller**. It classifies a name as a database or an
  impact-assessment method and routes a parsed command line to an action.

Files:

- `wrappers.dfy`: `Option`.
- `pyseq.dfy`: Python 2 list semantics the browser relies on: negative
  indices, clamped slices, `[::-1]`.
- `history.dfy`: history entries and the list form they take in the
  preferences file. Also `reformat_history`, the persisted `history[-10:]`
  window, and `format_history`.
- `option_list.dfy`: `current_options` and `max_page`. Also the screen
  `print_current_options` prints, the page partition, and the routing
  `choose_option` performs.
- `browser.dfy`: the `ActivityBrowser` class. Its fields are the source's
  fields: `page`, `max_page`, the option list, `project`, `database`,
  `activity`, `history`, `autosave`, `config.p` (`prefs`), the last saved
  preferences (`saved`) and `prompt`. Each command is a method with a
  `modifies` frame. `Valid()` is the invariant every command keeps:
  - `0 <= page <= max_page`;
  - `max_page` agrees with the list;
  - `options` and `formatted` have equal length;
  - an activity lies in the current database.
- `controller.dfy`: `database_or_method`, `dispatch`, `list`, `details`
  and `remove`.

The Brightway2 data layer becomes parameters of the commands that consult
it:
- the sorted database listing of the current project with each
  database's `number`;
- the name of the current activity;
- the keys of a database;
- the registered project and database names;
- `format_activity`, as a function from a key to its label, or None
  where the lookup raises.

The code targets Python 2. The model follows that in two places:
- `len(formatted) / page_size` is integer division, so `max_page` is
  `n div 20`.
- A negative option index selects from the end of the list.

Choosing the project that is already current skips only
`unknown_project` (`bw2ui/bin/bw2_browser.py:258-262`). The rest of
`choose_project` (lines 263-274) still runs: the project is selected again,
a history entry is appended, the database and activity are cleared, and the
databases are listed. `ChooseProject` models that.

## Model

| member | source | states |
|---|---|---|
| PySeq.ListIndex | bw2ui/bin/bw2_browser.py:122-131 | a Python index selects an element exactly when -n <= i < n, and a negative one counts from the end |
| PySeq.SliceFrom | bw2ui/bin/bw2_browser.py:268 | `s[start:]` is a suffix of `s`: n - start elements for a non-negative start (none past the end), the last -start elements (at most n) for a negative one |
| PySeq.SliceTo | bw2ui/bin/bw2_browser.py:190 | `s[:end]` is a prefix of `s`: the first min(end, n) elements, or all but the last -end elements for a negative end |
| PySeq.Slice | bw2ui/bin/bw2_browser.py:154 | `s[begin:end]` clamps to the list: its length is max(0, min(end, n) - begin) and element k is s[begin + k] |
| PySeq.Reversed | bw2ui/bin/bw2_browser.py:517-518 | `s[::-1]` has the same length and element i is s[n-1-i] |
| History.Encode | bw2ui/bin/bw2_browser.py:248-251 | an entry is stored as a two-element list headed by its kind; only an activity entry stores a list (its key) second |
| History.EntryOf | bw2ui/bin/bw2_browser.py:251 | `tuple(x)` of a non-activity pair gives an entry of that kind which encodes back to the pair |
| History.Reformat | bw2ui/bin/bw2_browser.py:250-251 | a stored entry that is read back encodes to exactly what was stored |
| History.ReformatEncode | bw2ui/bin/bw2_browser.py:248-251 | reading back a written entry gives the entry itself |
| History.ReformatHistory | bw2ui/bin/bw2_browser.py:248-251 | `reformat_history` keeps length and order, each result re-encodes to its stored element, and it succeeds exactly when every element has a stored-entry shape |
| History.Recent | bw2ui/bin/bw2_browser.py:268 | `history[-10:]` is the newest min(10, n) entries in order |
| History.Record | bw2ui/bin/bw2_browser.py:266-269 | the persisted `ab_history` holds min(10, n) entries |
| History.RecordRoundTrip | bw2ui/bin/bw2_browser.py:266-269 | what the next session reads back from a saved history is exactly its newest ten entries |
| History.RecentAppend | bw2ui/bin/bw2_browser.py:265-268 | appending one entry slides the persisted window by one; the window always ends with the new entry |
| History.FormatHistory | bw2ui/bin/bw2_browser.py:241-246 | a database entry reads "Db: name"; an activity entry is labelled by `format_activity` of its key; a project or foreign entry is labelled as if its first two characters were a key, and one shorter than two characters raises |
| History.ActivityLabel | bw2ui/bin/bw2_browser.py:246 | "Act: " followed by the data layer's label of the key, present exactly when the lookup succeeds |
| History.FormatHistoryList | bw2ui/bin/bw2_browser.py:518 | the labels line up one-to-one with the entries, and the list exists exactly when every entry can be labelled |
| OptionList.DatabaseOptions | bw2ui/bin/bw2_browser.py:344-355 | the database listing has one option per database, in listing order, and label i is `DatabaseLabel` of database i |
| OptionList.DatabaseLabel | bw2ui/bin/bw2_browser.py:348-353 | the label starts with the database name and " (", ends with " activities/flows)", and between them holds the `number` metadata or "unknown" |
| OptionList.Labels | bw2ui/bin/bw2_browser.py:122 | `current_options.get('formatted', [])`: no labels without a list, the list's labels otherwise |
| OptionList.MaxPage | bw2ui/bin/bw2_browser.py:175-177 | `max_page` is the number of full pages under Python 2 division: max_page*20 <= n < (max_page+1)*20 |
| OptionList.NatToString | bw2ui/bin/bw2_browser.py:155-156 | `%i` of an index is a non-empty string of decimal digits |
| OptionList.NatToStringRoundTrip | bw2ui/bin/bw2_browser.py:155-156 | `%i` can be read back, so distinct indices get distinct item labels |
| OptionList.Enumerated | bw2ui/bin/bw2_browser.py:154-157 | item k of an enumerated block is "[offset+k]: label k" |
| OptionList.Footer | bw2ui/bin/bw2_browser.py:158-161 | the footer names the current page, which can be read back from its digits, and ends with the last page and the navigation hint |
| OptionList.ListedItems | bw2ui/bin/bw2_browser.py:150-166 | a paged listing prints at most 20 item lines; an unpaged one prints one line per label |
| OptionList.ScreenBody | bw2ui/bin/bw2_browser.py:148-166 | "Empty list" for no labels; otherwise line k of an unpaged listing is "[k]: label k", and a paged one prints at most 20 items followed by the footer |
| OptionList.Screen | bw2ui/bin/bw2_browser.py:144-167 | the screen opens and closes with a blank line, shows the caption after the first one when given, and holds the listing body in between |
| OptionList.Shown | bw2ui/bin/bw2_browser.py:150-166 | every shown index lies inside the list; unpaged, all n are shown; paged, at most 20 are, all on the current page |
| OptionList.ListedItemsAreShown | bw2ui/bin/bw2_browser.py:148-166 | the printed items are exactly the shown indices, each labelled with its own global index and its own label |
| OptionList.ShownCount | bw2ui/bin/bw2_browser.py:150-166 | a paged listing shows min(20, n - 20*page) items; an unpaged one shows all n items, and then n < 20 |
| OptionList.PagesPartition | bw2ui/bin/bw2_browser.py:150-157 | in paged mode, index i is shown on page i div 20 (which is a valid page) and on no other page |
| OptionList.PageStartInside | bw2ui/bin/bw2_browser.py:152-154 | the first index of every page up to `max_page` lies inside the list or at its end |
| OptionList.LastPageEmptyOnMultiple | bw2ui/bin/bw2_browser.py:175-177 | with Python 2 division, a list of 20k items has a last page that lists nothing |
| OptionList.Route | bw2ui/bin/bw2_browser.py:118-142 | an index at or past the label count, or one Python cannot index with (below -len), selects nothing; a selection is always an option of the list's kind; a history entry of another kind is ignored |
| OptionList.RouteSelects | bw2ui/bin/bw2_browser.py:122-137 | an index inside the list, a negative one counting from the end, selects the option at that position; in the history list a database or activity entry goes to its chooser and any other entry to nothing |
| OptionList.HistoryTarget | bw2ui/bin/bw2_browser.py:132-137 | a history entry leads to the database chooser exactly when it is a database entry and to the activity chooser exactly when it is an activity entry, with the entry's own name or key |
| Browser.AutosaveText | bw2ui/bin/bw2_browser.py:87-88 | "on" exactly when autosave is on, "off" exactly when it is off |
| Browser.PromptName | bw2ui/bin/bw2_browser.py:186-190 | the shown name is a prefix of the activity name, cut to 68 - len(database) characters with Python slicing (so a long database name cuts from the end) |
| Browser.PromptText | bw2ui/bin/bw2_browser.py:184-206 | the prompt ends with ">> ", and it is exactly ">> " when no project, database or activity is selected |
| Browser.PromptTextShape | bw2ui/bin/bw2_browser.py:184-206 | with an activity the prompt is exactly "project@(database) name >> " with the cut name; with only a database it is exactly "project@(database) >> "; with only a project it is "project >> "; with an activity and a database name of at most 68 characters it fits in 76 characters after the project |
| Browser.ActivityAfter | bw2ui/bin/bw2_browser.py:313-318 | after `choose_database(d)` the activity is none or in `d`; it is the current one or the saved default; the current one is kept when it is in `d` |
| Browser.ActivityAfterCases | bw2ui/bin/bw2_browser.py:313-318 | the saved default is restored exactly in its branch, and no activity remains exactly when neither candidate lies in `d` |
| Browser.LoadedProjectAsWritten | bw2ui/bin/bw2_browser.py:276-289 | `load_project` as written raises exactly when a given project is unknown; otherwise it agrees with `StartupChoice` |
| Browser.StartupChoice | bw2ui/bin/bw2_browser.py:329-342 | the start-up database (and, corrected, the start-up project) is the given name if known, else the saved one, else none; an unknown given name is never selected |
| Browser.UnknownStartProject | bw2ui/bin/bw2_browser.py:279-282 | an unknown project name with a saved project raises as written, while the fallback selects the saved project |
| Browser.ActivityBrowser.constructor | bw2ui/bin/bw2_browser.py:682 | the browser starts with nothing selected, no option list and the stored preferences |
| Browser.ActivityBrowser.Init | bw2ui/bin/bw2_browser.py:93-112 | autosave and history come from the preferences; project, database and activity come from the start-up arguments or the saved ones; the history gains the loaded activity; the preferences are rewritten only for a given activity with autosave on; the prompt is the one the selection determines |
| Browser.ActivityBrowser.RestoreStored | bw2ui/bin/bw2_browser.py:102-104 | no option list at page 0, autosave as stored (off when missing) and the stored history read back |
| Browser.ActivityBrowser.LoadSelection | bw2ui/bin/bw2_browser.py:106-108 | the three loads in order: project, then database, then activity (which may move the database to the restored activity's); the prompt changes only when an activity is chosen, and then to the one the selection determines |
| Browser.ActivityBrowser.SetCurrentOptions | bw2ui/bin/bw2_browser.py:169-178 | `page` becomes 0; no list gives `max_page` 0; otherwise `max_page` is `len(formatted) div 20` |
| Browser.ActivityBrowser.Enumerate | bw2ui/bin/bw2_browser.py:154-157 | the printing loop produces one "[i]: label" line per label, numbered from the page's first index |
| Browser.ActivityBrowser.PrintCurrentOptions | bw2ui/bin/bw2_browser.py:144-167 | the printed lines are the screen of the current page: the caption, then "Empty list", the page's items and a footer, or all items; it changes nothing |
| Browser.ActivityBrowser.ShowOptions | bw2ui/bin/bw2_browser.py:292-302 | a new list is installed at page 0 and its first page is printed |
| Browser.ActivityBrowser.UpdatePrompt | bw2ui/bin/bw2_browser.py:184-206 | the prompt becomes the one the selection determines |
| Browser.ActivityBrowser.UnknownActivity | bw2ui/bin/bw2_browser.py:429-430 | the activity is cleared and the invariant kept |
| Browser.ActivityBrowser.UnknownProject | bw2ui/bin/bw2_browser.py:305-306 | the project is cleared and the invariant kept |
| Browser.ActivityBrowser.ListProjects | bw2ui/bin/bw2_browser.py:291-303 | the project names become the option list, each labelled by its name, and are printed |
| Browser.ActivityBrowser.ListDatabases | bw2ui/bin/bw2_browser.py:344-356 | the database listing becomes the option list and is printed |
| Browser.ActivityBrowser.SelectProject | bw2ui/bin/bw2_browser.py:258-269 | the project is `p` and the history gains exactly one project entry; the preferences record both only with autosave on |
| Browser.ActivityBrowser.ClearSelection | bw2ui/bin/bw2_browser.py:270-273 | the database and activity are cleared and the database listing becomes the option list |
| Browser.ActivityBrowser.ChooseProject | bw2ui/bin/bw2_browser.py:257-274 | even for the current project: project `p`, no database or activity, one project entry appended, the database listing as the options at page 0, the preferences written only with autosave on, and the prompt of the new selection (`ProjectChosen`) |
| Browser.ActivityBrowser.SelectActivity | bw2ui/bin/bw2_browser.py:373-379 | the activity and its database are selected and recorded; the preferences are written only with autosave on and not restoring |
| Browser.ActivityBrowser.ChooseActivity | bw2ui/bin/bw2_browser.py:372-381 | database `key[0]`, activity `key`, one activity entry appended, project and autosave kept, options cleared, the preferences written only with autosave on and not restoring, and the prompt updated (`ActivityChosen`) |
| Browser.ActivityBrowser.SettleActivity | bw2ui/bin/bw2_browser.py:313-318 | the activity follows `ActivityAfter`; restoring the saved default has exactly the effect of choosing it, so the history gains that activity; otherwise nothing else changes; the preferences change at most in their history |
| Browser.ActivityBrowser.SelectDatabase | bw2ui/bin/bw2_browser.py:320-325 | the database is `d` and the history gains exactly one database entry; the preferences record both only with autosave on |
| Browser.ActivityBrowser.ChooseDatabase | bw2ui/bin/bw2_browser.py:312-327 | database `d`; the activity is kept, restored or cleared, so it is none or in `d`; the history gains the restored activity, if any, then the database; options cleared; the preferences written only with autosave on; the prompt updated (`DatabaseChosen`) |
| Browser.ActivityBrowser.ChooseOption | bw2ui/bin/bw2_browser.py:118-142 | an index at or past the label count, or one that selects nothing, changes no state; otherwise the new state is exactly the one the chooser of the selection's kind leaves (`OptionChosen`) |
| Browser.ActivityBrowser.Default | bw2ui/bin/bw2_browser.py:436-444 | a line that is not a number, or a number typed with no list, changes nothing; otherwise the new state is exactly the one `choose_option` leaves for that index |
| Browser.ActivityBrowser.DoL | bw2ui/bin/bw2_browser.py:567-572 | the current screen when a list is present, the refusal otherwise |
| Browser.ActivityBrowser.DoLpj | bw2ui/bin/bw2_browser.py:574-576 | the project listing becomes the option list and is printed |
| Browser.ActivityBrowser.DoLdb | bw2ui/bin/bw2_browser.py:578-580 | the database listing becomes the option list and is printed |
| Browser.ActivityBrowser.DoN | bw2ui/bin/bw2_browser.py:582-590 | the page rises by exactly one, except with no list or on the last page, where it stays; it stays within 0..max_page |
| Browser.ActivityBrowser.DoP | bw2ui/bin/bw2_browser.py:592-610 | `p k` moves to k only when 0 <= k <= max_page; bare `p` moves back one except at page 0; nothing moves without a list or for a non-number |
| Browser.ActivityBrowser.DoH | bw2ui/bin/bw2_browser.py:513-520 | the history, newest first, becomes the option list with one label per entry and is printed; nothing changes when an entry cannot be labelled |
| Browser.ActivityBrowser.DoAutosave | bw2ui/bin/bw2_browser.py:464-471 | autosave flips, the new setting is stored and saved, and the message names it |
| Browser.ActivityBrowser.DoA | bw2ui/bin/bw2_browser.py:454-462 | with no database, or an id that is not in it, nothing changes; otherwise the new state is exactly the one choosing activity (database, id) leaves |
| Browser.ActivityBrowser.DoDb | bw2ui/bin/bw2_browser.py:505-511 | an unregistered name changes nothing; otherwise the new state is exactly the one choosing that database leaves |
| Browser.ActivityBrowser.LoadProject | bw2ui/bin/bw2_browser.py:276-289 | the project is `StartupChoice`'s choice, so an unknown given project falls back; with none, the project listing becomes the option list |
| Browser.ActivityBrowser.LoadDatabase | bw2ui/bin/bw2_browser.py:329-342 | the database is the given one if registered (an unknown one falls back by recursion), else the saved one, else none |
| Browser.ActivityBrowser.LoadActivity | bw2ui/bin/bw2_browser.py:362-370 | a given id is chosen in the current database; else the saved activity is restored without rewriting the preferences; else none; the prompt is updated only when an activity is chosen |
| Controller.Split | bw2ui/controller.py:10-11 | `name.split(":")` gives at least one piece, no piece contains ":", and joining the pieces with ":" gives the name back |
| Controller.SplitInjective | bw2ui/controller.py:10-11 | different names have different splits |
| Controller.DatabaseOrMethod | bw2ui/controller.py:7-13 | a registered database name is a database exactly; otherwise a name is a method whose parts join back to the name; ValueError exactly when neither lookup succeeds |
| Controller.DatabasePrecedence | bw2ui/controller.py:8-9 | a database name is classified the same whatever the method registry holds |
| Controller.MethodLookup | bw2ui/controller.py:10-13 | a name that is not a database is a method exactly when its split is registered |
| Controller.List | bw2ui/controller.py:28-32 | the database list exactly when the `databases` flag is set, the method list otherwise |
| Controller.Details | bw2ui/controller.py:34-39 | a database name gets its own `databases` entry; any other name whose split is a registered method gets that method's entry; ValueError exactly when classification fails |
| Controller.Remove | bw2ui/controller.py:41-46 | the deregistration of exactly the classified name; ValueError exactly when classification fails |
| Controller.Dispatch | bw2ui/controller.py:15-26 | the action of the first flag that holds; the literal "This action not yet supported!" exactly when none holds; ValueError only from details or remove |
| Controller.DispatchFirstFlagWins | bw2ui/controller.py:15-26 | flags after the first one that holds are never consulted |

## Left out

- Printed messages other than option listings are not modelled: refusals, "Autosave is now ..." (which `DoAutosave` returns), help text, and the `GRUMPY`/`QUIET` cycles. They are presentation only.
- Browser.ActivityBrowser.DoN: the screen printed after a page move is not returned. It is `PrintCurrentOptions` of the new state.
- Browser.ActivityBrowser.DoP: the screen printed after a page move is not returned, as for `DoN`.
- Browser.ActivityBrowser.ChooseProject: the database screen printed by `list_databases` is discarded. `ListDatabases` states it.
- Browser.ActivityBrowser.LoadProject: the project screen printed by `list_projects` is discarded. `ListProjects` states it. `projects.current = project` is not modelled, because it is a data-layer side effect.
- Browser.ActivityBrowser.LoadActivity: an activity id given with no database selected is excluded by its requires. The source would build the key `(None, id)`, which is outside the key type.
- Browser.ActivityBrowser.Init: a stored history containing anything other than `[kind, name]` pairs or `["activity", [db, code]]` entries is excluded by its requires. The browser never writes such histories. The start-up tuple conversion of `ab_activity` and `format_defaults` are presentation.
- `save_preferences` is modelled as `saved` taking the value of `prefs`. The JSON file I/O is not modelled.
- `format_activity` and the other data-layer lookups are parameters, not implementations. These are `Database(...).get/load`, `databases`, `projects` and `methods`.
- The bare `except` in `choose_option` is modelled only where it matters: an index below -len selects nothing. Failures of the data layer inside a chooser are not modelled.
- `do_i`, `do_b`, `do_u`, `do_d`, `do_s`, `do_r`, `do_web`, `do_wh`, `do_cp`, `do_help`, `do_q`, `emptyline`, `format_exchanges_as_options`, `get_downstream_exchanges` and `main` are not modelled. They are data-layer traversals, float formatting, threads, the web browser, file I/O, a development-only wipe, or the shell loop.
- Browser.ActivityBrowser.DoH: `ok == false` stands for the exception that `format_history` raises, which leaves `cmdloop` and ends the session; the model keeps the old state instead. A project entry reaches `format_activity` with the key `(p[0], p[1])` (lines 245-246), which the model follows without guessing at an intended label.
- Browser.ActivityBrowser.ChooseProject, Browser.ActivityBrowser.ListDatabases: the `listing` parameter stands for `sorted(databases.list)` with each database's `number` (line 345); that it is sorted is not required, because the data layer is not modelled.
- Controller: a missing `<name>` (None) is not modelled. `import_database` and `import_method` become the requests `ImportDatabase`/`ImportMethod`, because they only call the importers. `remove` returns the deregistration request instead of performing it.
- The Flask web app (`bw2ui/web/app.py`) and packaging (`setup.py`) are not part of this model.

## Findings

| source | as written | input that shows it | evidently intended | confidence | as-written member | corrected member |
|---|---|---|---|---|---|---|
| bw2ui/bin/bw2_browser.py:279-282 | `load_project` calls the bare name `load_project(None)` for an unknown project. No module-level function of that name exists, so start-up raises NameError | `bw2-browser lost` with no project "lost" and the saved project "kept" | `self.load_project(None)`: fall back to the saved project, as `load_database` does at line 335 | high; not executed | Browser.LoadedProjectAsWritten (Browser.UnknownStartProject) | Browser.StartupChoice (used by Browser.ActivityBrowser.LoadProject) |
