/**
 * The command-line activity browser (`ActivityBrowser`): a single-threaded
 * object whose commands move it between option lists, pages, and the
 * selected project, database and activity, appending to its history and,
 * with autosave on, writing its preferences.
 *
 * Lookups in the external data layer are parameters of the commands that
 * make them: the sorted database listing of a project, the name of an
 * activity, the keys of a database, the registered database names, and the
 * label of an activity.
 */
module Browser {
  import opened Wrappers
  import opened PySeq
  import opened History
  import opened OptionList

  /** `get_autosave_text`. */
  function AutosaveText(autosave: bool): (r: string)
    ensures r == "on" <==> autosave
    ensures r == "off" <==> !autosave
  {
    if autosave then "on" else "off"
  }

  /**
   * The browser's keys of `config.p`. `ab_history` is held in the list form
   * the preferences file stores, which is what a later session reads back.
   */
  datatype Prefs = Prefs(
    project: Option<string>,
    database: Option<string>,
    activity: Option<Key>,
    history: Option<seq<Json>>,
    autosave: Option<bool>)

  /** What `int(arg)` makes of the argument of the `p` command. */
  datatype PageArg = NoArg | PageNumber(n: int) | NotANumber

  /** Python truth of an optional string: present and non-empty. */
  predicate Truthy(s: Option<string>) {
    s.Some? && s.value != ""
  }

  /** `"%s" % s` where s may be None. */
  function Text(s: Option<string>): string {
    if s.Some? then s.value else "None"
  }

  /**
   * The activity name as the prompt shows it: cut to `76 - 8 - len(database)`
   * characters with Python slicing, so that a database name longer than 68
   * characters drops characters from the end of the name instead.
   */
  function PromptName(name: string, database: string): (r: string)
    ensures r <= name
    ensures |name| <= 68 - |database| ==> r == name
    ensures 0 <= 68 - |database| < |name| ==> |r| == 68 - |database|
    ensures 68 - |database| < 0 ==> |r| == Max(0, |name| - (|database| - 68))
  {
    var allowed := 76 - 8 - |database|;
    if allowed < |name| then SliceTo(name, allowed) else name
  }

  /** "%(pj)s@(%(db)s)", the part of the prompt that names the project and the database. */
  function Location(project: Option<string>, database: string): (r: string)
    ensures |r| == |Text(project)| + |database| + 3
    ensures Text(project) + "@(" + database + ")" <= r
  {
    Text(project) + "@(" + database + ")"
  }

  /** The prompt `update_prompt` sets; `name` is the current activity's name in the data layer. */
  function PromptText(project: Option<string>, database: Option<string>, activity: Option<Key>, name: string): (r: string)
    requires activity.Some? ==> database.Some?
    ensures |r| >= 3 && r[|r| - 3..] == ">> "
    ensures r == ">> " <==> activity.None? && !Truthy(database) && !Truthy(project)
  {
    if activity.Some? then
      Location(project, database.value) + " " + PromptName(name, database.value) + " >> "
    else if Truthy(database) then
      Location(project, database.value) + " >> "
    else if Truthy(project) then
      project.value + " >> "
    else ">> "
  }

  /**
   * What the prompt shows: "project@(database)" first whenever a database
   * or an activity is selected, "project >> " for a project alone, and, with
   * an activity, its shortened name last; for a database name of at most 68
   * characters the part after the project fits in 76 characters.
   */
  lemma {:induction false} PromptTextShape(project: Option<string>, database: Option<string>, activity: Option<Key>, name: string)
    requires activity.Some? ==> database.Some?
    ensures var r := PromptText(project, database, activity, name);
      && (activity.Some? || Truthy(database) ==> Location(project, database.value) <= r)
      && (activity.None? && Truthy(database) ==> r == Location(project, database.value) + " >> ")
      && (activity.Some? ==> r == Location(project, database.value) + " " + PromptName(name, database.value) + " >> ")
      && (activity.None? && !Truthy(database) && Truthy(project) ==> r == project.value + " >> ")
      && (activity.Some? && |database.value| <= 68 ==> |r| <= |Text(project)| + 76)
    ensures activity.Some? ==>
      var r := PromptText(project, database, activity, name);
      var tail := PromptName(name, database.value) + " >> ";
      |tail| <= |r| && r[|r| - |tail|..] == tail
  {
    if activity.Some? {
      var head := Location(project, database.value) + " ";
      var tail := PromptName(name, database.value) + " >> ";
      assert PromptText(project, database, activity, name) == head + tail;
      assert (head + tail)[|head|..] == tail;
      assert Location(project, database.value) <= head;
    }
  }

  /**
   * The activity `choose_database(d)` leaves selected: the current one if it
   * is in `d`, else the saved default activity if that is in `d`, else none.
   */
  function ActivityAfter(current: Option<Key>, default: Option<Key>, d: string): (r: Option<Key>)
    ensures r.None? || r.value.db == d
    ensures r.Some? ==> r == current || r == default
    ensures current.Some? && current.value.db == d ==> r == current
  {
    if current.Some? && current.value.db == d then current
    else if default.Some? && default.value.db == d then default
    else None
  }

  /** Whether `choose_database(d)` restores the saved default activity. */
  predicate Restores(current: Option<Key>, default: Option<Key>, d: string) {
    !(current.Some? && current.value.db == d) && default.Some? && default.value.db == d
  }

  lemma ActivityAfterCases(current: Option<Key>, default: Option<Key>, d: string)
    ensures Restores(current, default, d) ==> ActivityAfter(current, default, d) == default
    ensures ActivityAfter(current, default, d).None? <==>
      !(current.Some? && current.value.db == d) && !(default.Some? && default.value.db == d)
  {
  }

  /**
   * The project `load_project(p)` ends with as written: a given project that
   * is not in `known` reaches the unqualified call `load_project(None)`,
   * which raises NameError (None here); otherwise the given project, else the
   * saved one, else none.
   */
  function LoadedProjectAsWritten(p: Option<string>, known: set<string>, saved: Option<string>): (r: Option<Option<string>>)
    ensures r.None? <==> Truthy(p) && p.value !in known
    ensures r.Some? ==> r.value == StartupChoice(p, known, saved)
  {
    if Truthy(p) then
      if p.value in known then Some(p) else None
    else if Truthy(saved) then Some(saved)
    else Some(None)
  }

  /**
   * The start-up selection `load_database(d)` makes, and `load_project(p)`
   * is evidently meant to make: the given name if it is among `known`, else
   * the saved one, else none. A given name that is not known is never selected.
   */
  function StartupChoice(given: Option<string>, known: set<string>, saved: Option<string>): (r: Option<string>)
    ensures r.Some? ==> (r == given && given.value in known) || r == saved
    ensures Truthy(given) && given.value in known ==> r == given
    ensures r.None? <==> !(Truthy(given) && given.value in known) && !Truthy(saved)
  {
    if Truthy(given) && given.value in known then given
    else if Truthy(saved) then saved
    else None
  }

  /** An unknown project given at start-up: the code as written raises, the fallback uses the saved project. */
  lemma UnknownStartProject()
    ensures LoadedProjectAsWritten(Some("lost"), {"kept"}, Some("kept")).None?
    ensures StartupChoice(Some("lost"), {"kept"}, Some("kept")) == Some("kept")
  {
  }

  class ActivityBrowser {
    const pageSize: nat
    var page: int
    var maxPage: int
    var options: Options
    var project: Option<string>
    var database: Option<string>
    var activity: Option<Key>
    var history: seq<Entry>
    var autosave: bool
    /** `config.p`. */
    var prefs: Prefs
    /** What `config.save_preferences()` last wrote. */
    var saved: Prefs
    var prompt: string

    /** The pager bounds, the option list's shape, and an activity inside the current database. */
    ghost predicate Valid()
      reads this
    {
      && pageSize == PageSize
      && 0 <= page <= maxPage
      && Parallel(options)
      && maxPage == MaxPage(|Labels(options)|)
      && (activity.Some? ==> database == Some(activity.value.db))
      && (forall i :: 0 <= i < |history| ==> WellFormed(history[i]))
    }

    /** The object `_init` starts from: nothing selected, no options, empty history, `config.p` as stored. */
    constructor (stored: Prefs)
      ensures Valid()
      ensures project == None && database == None && activity == None && history == []
      ensures options == NoOptions && page == 0
      ensures prefs == stored && saved == stored
    {
      pageSize := PageSize;
      page, maxPage, options := 0, 0, NoOptions;
      autosave := false;
      history := [];
      project, database, activity := None, None, None;
      prefs, saved := stored, stored;
      prompt := "(Cmd) ";
    }

    /**
     * `_init`: no option list, autosave and history from the stored
     * preferences, then `load_project`, `load_database` and `load_activity`
     * with the start-up arguments, then the prompt. `known` and `names` are
     * the project names, `registered` the database names.
     */
    method Init(p: Option<string>, d: Option<string>, id: Option<string>,
                known: set<string>, names: seq<string>, registered: set<string>, activityName: string)
      requires Valid() && activity.None?
      requires ReformatHistory(prefs.history.GetOr([])).Some?
      requires id.Some? ==> StartupChoice(d, registered, prefs.database).Some?
      modifies this
      ensures Valid()
      ensures autosave == old(prefs).autosave.GetOr(false)
      ensures project == StartupChoice(p, known, old(prefs).project)
      ensures activity == if id.Some? then Some(Key(StartupChoice(d, registered, old(prefs).database).value, id.value))
                          else old(prefs).activity
      ensures database == if activity.Some? then Some(activity.value.db) else StartupChoice(d, registered, old(prefs).database)
      ensures history == ReformatHistory(old(prefs).history.GetOr([])).value
                         + (if activity.Some? then [ActivityEntry(activity.value)] else [])
      ensures options == if project.None? && activity.None? then ProjectList(names, names) else NoOptions
      ensures page == 0
      ensures if id.Some? && autosave then prefs == old(prefs).(activity := activity, history := Some(Record(history))) && saved == prefs
              else prefs == old(prefs) && saved == old(saved)
      ensures prompt == PromptText(project, database, activity, activityName)
    {
      RestoreStored();
      LoadSelection(p, d, id, known, names, registered, activityName);
      UpdatePrompt(activityName);
    }

    /** The first steps of `_init`: no option list, autosave and history as stored. */
    method RestoreStored()
      requires Valid() && ReformatHistory(prefs.history.GetOr([])).Some?
      modifies this`page, this`maxPage, this`options, this`autosave, this`history
      ensures Valid()
      ensures options == NoOptions && page == 0
      ensures autosave == prefs.autosave.GetOr(false)
      ensures history == ReformatHistory(prefs.history.GetOr([])).value
    {
      SetCurrentOptions(NoOptions);
      autosave := prefs.autosave.GetOr(false);
      history := ReformatHistory(prefs.history.GetOr([])).value;
    }

    /** The `load_project`, `load_database`, `load_activity` sequence of `_init`. */
    method LoadSelection(p: Option<string>, d: Option<string>, id: Option<string>,
                         known: set<string>, names: seq<string>, registered: set<string>, activityName: string)
      requires Valid() && activity.None? && options == NoOptions
      requires id.Some? ==> StartupChoice(d, registered, prefs.database).Some?
      modifies this
      ensures Valid() && autosave == old(autosave)
      ensures project == StartupChoice(p, known, old(prefs).project)
      ensures activity == if id.Some? then Some(Key(StartupChoice(d, registered, old(prefs).database).value, id.value))
                          else old(prefs).activity
      ensures database == if activity.Some? then Some(activity.value.db) else StartupChoice(d, registered, old(prefs).database)
      ensures history == old(history) + (if activity.Some? then [ActivityEntry(activity.value)] else [])
      ensures options == if project.None? && activity.None? then ProjectList(names, names) else NoOptions
      ensures page == 0
      ensures if id.Some? && autosave then prefs == old(prefs).(activity := activity, history := Some(Record(history))) && saved == prefs
              else prefs == old(prefs) && saved == old(saved)
      ensures activity.None? ==> prompt == old(prompt)
      ensures activity.Some? ==> prompt == PromptText(project, database, activity, activityName)
    {
      LoadProject(p, known, names);
      LoadDatabase(d, registered);
      LoadActivity(id, activityName);
    }

    /** `set_current_options`: a new list, back to page 0, `max_page` recomputed. */
    method SetCurrentOptions(o: Options)
      requires Valid() && Parallel(o)
      modifies this`page, this`maxPage, this`options
      ensures Valid()
      ensures options == o && page == 0
      ensures o.NoOptions? ==> maxPage == 0
      ensures maxPage == |Labels(o)| / PageSize
    {
      page := 0;
      if o.NoOptions? {
        maxPage := 0;
      } else {
        maxPage := |o.formatted| / pageSize;
      }
      options := o;
    }

    /** The item lines for `labels`, numbered from `offset`. */
    method Enumerate(labels: seq<string>, offset: nat) returns (lines: seq<string>)
      ensures |lines| == |labels|
      ensures forall k :: 0 <= k < |labels| ==> lines[k] == ItemLine(offset + k, labels[k])
      ensures lines == Enumerated(labels, offset)
    {
      lines := [];
      var k := 0;
      while k < |labels|
        invariant 0 <= k <= |labels|
        invariant |lines| == k
        invariant forall j :: 0 <= j < k ==> lines[j] == ItemLine(offset + j, labels[j])
      {
        lines := lines + [ItemLine(offset + k, labels[k])];
        k := k + 1;
      }
    }

    /** `print_current_options`: what it prints, one element per `print` call. */
    method PrintCurrentOptions(caption: string) returns (out: seq<string>)
      requires Valid()
      ensures out == Screen(caption, options, page, maxPage)
    {
      var head := if caption != "" then [caption + "\n"] else [];
      var labels := Labels(options);
      var body: seq<string>;
      if labels == [] {
        body := ["Empty list"];
      } else if maxPage != 0 {
        var begin := page * pageSize;
        var end := (page + 1) * pageSize;
        var items := Enumerate(Slice(labels, begin, end), begin);
        body := items + [Footer(page, maxPage)];
      } else {
        body := Enumerate(labels, 0);
      }
      assert body == ScreenBody(labels, page, maxPage);
      out := [""] + head + body + [""];
    }

    /** `set_current_options(o)` followed by `print_current_options(caption)`: the screen of page 0 of `o`. */
    method ShowOptions(o: Options, caption: string) returns (shown: seq<string>)
      requires Valid() && Parallel(o)
      modifies this`page, this`maxPage, this`options
      ensures Valid()
      ensures options == o && page == 0
      ensures shown == Screen(caption, o, 0, MaxPage(|Labels(o)|))
    {
      SetCurrentOptions(o);
      shown := PrintCurrentOptions(caption);
    }

    /** `update_prompt`. */
    method UpdatePrompt(activityName: string)
      requires Valid()
      modifies this`prompt
      ensures prompt == PromptText(project, database, activity, activityName)
    {
      prompt := PromptText(project, database, activity, activityName);
    }

    /** `unknown_activity`. */
    method UnknownActivity()
      requires Valid()
      modifies this`activity
      ensures Valid() && activity == None
    {
      activity := None;
    }

    /** `unknown_project`. */
    method UnknownProject()
      requires Valid()
      modifies this`project
      ensures Valid() && project == None
    {
      project := None;
    }

    /** `list_projects`: the project names, each labelled by its name, listed and printed. */
    method ListProjects(names: seq<string>) returns (shown: seq<string>)
      requires Valid()
      modifies this`page, this`maxPage, this`options
      ensures Valid()
      ensures options == ProjectList(names, names) && page == 0
      ensures shown == Screen("Projects", ProjectList(names, names), 0, MaxPage(|names|))
    {
      shown := ShowOptions(ProjectList(names, names), "Projects");
    }

    /**
     * `list_databases`, listed and printed; `listing` is `sorted(databases.list)`
     * with each database's number.
     */
    method ListDatabases(listing: seq<DbEntry>) returns (shown: seq<string>)
      requires Valid()
      modifies this`page, this`maxPage, this`options
      ensures Valid()
      ensures options == DatabaseOptions(listing) && page == 0
      ensures shown == Screen("Databases", DatabaseOptions(listing), 0, MaxPage(|listing|))
    {
      shown := ShowOptions(DatabaseOptions(listing), "Databases");
    }

    /**
     * The first step of `choose_project(p)`: `p` becomes the project and is
     * recorded in the history, and with autosave on both go to the preferences.
     */
    method SelectProject(p: string)
      requires Valid()
      modifies this`project, this`history, this`prefs, this`saved
      ensures Valid()
      ensures project == Some(p) && history == old(history) + [ProjectEntry(p)]
      ensures if autosave then prefs == old(prefs).(project := Some(p), history := Some(Record(history))) && saved == prefs
              else prefs == old(prefs) && saved == old(saved)
    {
      if Truthy(project) && project.value == p {
      } else {
        UnknownProject();
      }
      project := Some(p);
      history := history + [ProjectEntry(p)];
      if autosave {
        prefs := prefs.(project := Some(p), history := Some(Record(history)));
        saved := prefs;
      }
    }

    /**
     * The second step of `choose_project`: no option list, no activity, no
     * database, then the databases of the new project (`listing`) are listed.
     */
    method ClearSelection(listing: seq<DbEntry>)
      requires Valid()
      modifies this`page, this`maxPage, this`options, this`activity, this`database
      ensures Valid()
      ensures activity == None && database == None
      ensures options == DatabaseOptions(listing) && page == 0
    {
      SetCurrentOptions(NoOptions);
      activity := None;
      database := None;
      var _ := ListDatabases(listing);
    }

    /**
     * The state `choose_project(p)` leaves: even when `p` is already the
     * current project, it is selected again and recorded in the history, the
     * database listing of `p` (`listing`) replaces the option list, database
     * and activity are cleared, and with autosave on the project and the
     * recent history are saved.
     */
    twostate predicate ProjectChosen(p: string, listing: seq<DbEntry>)
      reads this
    {
      && project == Some(p) && database == None && activity == None
      && history == old(history) + [ProjectEntry(p)]
      && options == DatabaseOptions(listing) && page == 0
      && autosave == old(autosave)
      && (if autosave then prefs == old(prefs).(project := Some(p), history := Some(Record(history))) && saved == prefs
          else prefs == old(prefs) && saved == old(saved))
      && prompt == PromptText(project, None, None, "")
    }

    /** `choose_project`. */
    method ChooseProject(p: string, listing: seq<DbEntry>)
      requires Valid()
      modifies this
      ensures Valid()
      ensures ProjectChosen(p, listing)
    {
      SelectProject(p);
      ClearSelection(listing);
      UpdatePrompt("");
    }

    /**
     * The first step of `choose_activity(key, restored)`: `key` and its
     * database become current and `key` is recorded in the history; with
     * autosave on and `restored` off both go to the preferences.
     */
    method SelectActivity(key: Key, restored: bool)
      requires Valid()
      modifies this`database, this`activity, this`history, this`prefs, this`saved
      ensures Valid()
      ensures database == Some(key.db) && activity == Some(key)
      ensures history == old(history) + [ActivityEntry(key)]
      ensures if autosave && !restored then prefs == old(prefs).(activity := Some(key), history := Some(Record(history))) && saved == prefs
              else prefs == old(prefs) && saved == old(saved)
    {
      database := Some(key.db);
      activity := Some(key);
      history := history + [ActivityEntry(key)];
      if autosave && !restored {
        prefs := prefs.(activity := Some(key), history := Some(Record(history)));
        saved := prefs;
      }
    }

    /**
     * The state `choose_activity(key, restored)` leaves: `key` and its
     * database are selected and recorded, the option list is cleared, the
     * project and autosave are kept, and the preferences are written only
     * with autosave on and when the activity is not being restored from them.
     */
    twostate predicate ActivityChosen(key: Key, restored: bool, activityName: string)
      reads this
    {
      && database == Some(key.db) && activity == Some(key)
      && history == old(history) + [ActivityEntry(key)]
      && project == old(project) && autosave == old(autosave)
      && options == NoOptions && page == 0 && maxPage == 0
      && (if old(autosave) && !restored then prefs == old(prefs).(activity := Some(key), history := Some(Record(history))) && saved == prefs
          else prefs == old(prefs) && saved == old(saved))
      && prompt == PromptText(project, database, activity, activityName)
    }

    /** `choose_activity`. */
    method ChooseActivity(key: Key, restored: bool, activityName: string)
      requires Valid()
      modifies this
      ensures Valid()
      ensures ActivityChosen(key, restored, activityName)
    {
      SelectActivity(key, restored);
      SetCurrentOptions(NoOptions);
      UpdatePrompt(activityName);
    }

    /**
     * The first step of `choose_database(d)`: keep the activity if it is in
     * `d`, else choose the saved default activity if that is in `d` (with
     * everything `choose_activity` does), else clear the activity and change
     * nothing else.
     */
    method SettleActivity(d: string, activityName: string)
      requires Valid()
      modifies this
      ensures Valid()
      ensures activity == ActivityAfter(old(activity), old(prefs.activity), d)
      ensures Restores(old(activity), old(prefs.activity), d) ==> ActivityChosen(old(prefs.activity).value, false, activityName)
      ensures prefs == old(prefs).(history := prefs.history)
      ensures history == old(history)
        + (if Restores(old(activity), old(prefs.activity), d) then [ActivityEntry(old(prefs.activity).value)] else [])
      ensures !Restores(old(activity), old(prefs.activity), d) ==>
        && database == old(database) && history == old(history) && project == old(project)
        && autosave == old(autosave) && options == old(options) && page == old(page) && maxPage == old(maxPage)
        && prefs == old(prefs) && saved == old(saved) && prompt == old(prompt)
    {
      if activity.Some? && activity.value.db == d {
      } else if prefs.activity.Some? && prefs.activity.value.db == d {
        ChooseActivity(prefs.activity.value, false, activityName);
      } else {
        UnknownActivity();
      }
    }

    /**
     * The second step of `choose_database(d)`: `d` becomes the database and
     * is recorded in the history; with autosave on both go to the preferences.
     */
    method SelectDatabase(d: string)
      requires Valid() && (activity.Some? ==> activity.value.db == d)
      modifies this`database, this`history, this`prefs, this`saved
      ensures Valid()
      ensures database == Some(d) && history == old(history) + [DatabaseEntry(d)]
      ensures if autosave then prefs == old(prefs).(database := Some(d), history := Some(Record(history))) && saved == prefs
              else prefs == old(prefs) && saved == old(saved)
    {
      database := Some(d);
      history := history + [DatabaseEntry(d)];
      if autosave {
        prefs := prefs.(database := Some(d), history := Some(Record(history)));
        saved := prefs;
      }
    }

    /**
     * The state `choose_database(d)` leaves: `d` is selected; the activity is
     * kept if it is in `d`, else the saved default activity is chosen if it
     * is in `d` (which also records it), else cleared; the last history entry
     * is `d`; the option list is cleared; with autosave on the database and
     * the recent history are saved.
     */
    twostate predicate DatabaseChosen(d: string, activityName: string)
      reads this
    {
      && database == Some(d)
      && activity == ActivityAfter(old(activity), old(prefs.activity), d)
      && history == old(history)
         + (if Restores(old(activity), old(prefs.activity), d) then [ActivityEntry(old(prefs.activity).value)] else [])
         + [DatabaseEntry(d)]
      && project == old(project) && autosave == old(autosave)
      && options == NoOptions && page == 0 && maxPage == 0
      && (if autosave then prefs == old(prefs).(database := Some(d), history := Some(Record(history))) && saved == prefs
          else prefs == old(prefs) && saved == old(saved))
      && prompt == PromptText(project, database, activity, activityName)
    }

    /** `choose_database`. */
    method ChooseDatabase(d: string, activityName: string)
      requires Valid()
      modifies this
      ensures Valid()
      ensures DatabaseChosen(d, activityName)
    {
      SettleActivity(d, activityName);
      SelectDatabase(d);
      SetCurrentOptions(NoOptions);
      UpdatePrompt(activityName);
    }

    /**
     * The state `choose_option(index)` leaves: an index at or past the number
     * of labels, or one that selects nothing, changes nothing; otherwise the
     * selection has exactly the effect of the chooser of its kind.
     */
    twostate predicate OptionChosen(index: int, listing: seq<DbEntry>, activityName: string)
      requires old(Parallel(options))
      reads this
    {
      match old(Route(options, index))
      case NoTarget => unchanged(this)
      case ToProject(p) => ProjectChosen(p, listing)
      case ToDatabase(d) => DatabaseChosen(d, activityName)
      case ToActivity(k) => ActivityChosen(k, false, activityName)
    }

    /** `choose_option(index)`. */
    method ChooseOption(index: int, listing: seq<DbEntry>, activityName: string)
      requires Valid()
      modifies this
      ensures Valid()
      ensures index >= |Labels(old(options))| ==> unchanged(this)
      ensures OptionChosen(index, listing, activityName)
    {
      match Route(options, index)
      case NoTarget =>
      case ToProject(p) => ChooseProject(p, listing);
      case ToDatabase(d) => ChooseDatabase(d, activityName);
      case ToActivity(k) => ChooseActivity(k, false, activityName);
    }

    /**
     * `default(line)`: a line that is no command selects an option when a
     * list is present; `index` is `int(line)`, None where the conversion
     * fails (the exception is swallowed).
     */
    method Default(index: Option<int>, listing: seq<DbEntry>, activityName: string)
      requires Valid()
      modifies this
      ensures Valid()
      ensures old(options).NoOptions? || index.None? ==> unchanged(this)
      ensures !old(options).NoOptions? && index.Some? ==> OptionChosen(index.value, listing, activityName)
    {
      if !options.NoOptions? && index.Some? {
        ChooseOption(index.value, listing, activityName);
      }
    }

    /** `l`: the current list's screen, or the refusal without a list. */
    method DoL() returns (out: seq<string>)
      requires Valid()
      ensures options.NoOptions? ==> out == ["No current options"]
      ensures !options.NoOptions? ==> out == Screen("", options, page, maxPage)
    {
      if options.NoOptions? {
        out := ["No current options"];
      } else {
        out := PrintCurrentOptions("");
      }
    }

    /** `lpj`: the project listing. */
    method DoLpj(names: seq<string>) returns (shown: seq<string>)
      requires Valid()
      modifies this`page, this`maxPage, this`options
      ensures Valid()
      ensures options == ProjectList(names, names) && page == 0
      ensures shown == Screen("Projects", ProjectList(names, names), 0, MaxPage(|names|))
    {
      shown := ListProjects(names);
    }

    /** `ldb`: the database listing of the current project. */
    method DoLdb(listing: seq<DbEntry>) returns (shown: seq<string>)
      requires Valid()
      modifies this`page, this`maxPage, this`options
      ensures Valid()
      ensures options == DatabaseOptions(listing) && page == 0
      ensures shown == Screen("Databases", DatabaseOptions(listing), 0, MaxPage(|listing|))
    {
      shown := ListDatabases(listing);
    }

    /** `n`: one page forward, refused without a list or on the last page. */
    method DoN()
      requires Valid()
      modifies this`page
      ensures Valid()
      ensures page == if options.NoOptions? || old(page) == maxPage then old(page) else old(page) + 1
    {
      if options.NoOptions? {
        // "Not in page mode"
      } else if page == maxPage {
        // "No next page"
      } else {
        page := page + 1;
      }
    }

    /** `p` and `p k`: one page back (refused at page 0), or to page k when 0 <= k <= max_page. */
    method DoP(arg: PageArg)
      requires Valid()
      modifies this`page
      ensures Valid()
      ensures options.NoOptions? ==> page == old(page)
      ensures !options.NoOptions? ==>
        page == match arg
          case NoArg => if old(page) == 0 then 0 else old(page) - 1
          case PageNumber(k) => if 0 <= k <= maxPage then k else old(page)
          case NotANumber => old(page)
    {
      if options.NoOptions? {
        // "Not in page mode"
      } else if !arg.NoArg? {
        match arg
        case PageNumber(k) =>
          if k < 0 || k > maxPage {
            // "Invalid page number"
          } else {
            page := k;
          }
        case NotANumber =>
          // "Can't convert page number"
      } else if page == 0 {
        // "Already page 0"
      } else {
        page := page - 1;
      }
    }

    /**
     * `h`: the history, newest first, becomes the option list and is printed
     * (`shown`). When some entry cannot be labelled, the exception leaves the
     * command before anything changes.
     */
    method DoH(describe: Key -> Option<string>) returns (ok: bool, shown: seq<string>)
      requires Valid()
      modifies this`page, this`maxPage, this`options
      ensures Valid()
      ensures ok == FormatHistoryList(Reversed(history), describe).Some?
      ensures !ok ==> unchanged(this) && shown == []
      ensures ok ==> options == HistoryList(Reversed(history), FormatHistoryList(Reversed(history), describe).value) && page == 0
      ensures ok ==> shown == Screen("Browser history", options, 0, MaxPage(|history|))
    {
      var entries := Reversed(history);
      var formatted := FormatHistoryList(entries, describe);
      if formatted.None? {
        return false, [];
      }
      shown := ShowOptions(HistoryList(entries, formatted.value), "Browser history");
      ok := true;
    }

    /** `autosave`: toggles the flag, stores and saves it, and reports the new setting. */
    method DoAutosave() returns (message: string)
      requires Valid()
      modifies this`autosave, this`prefs, this`saved
      ensures Valid()
      ensures autosave == !old(autosave)
      ensures prefs == old(prefs).(autosave := Some(autosave)) && saved == prefs
      ensures message == "Autosave is now " + AutosaveText(autosave)
    {
      autosave := !autosave;
      prefs := prefs.(autosave := Some(autosave));
      saved := prefs;
      message := "Autosave is now " + AutosaveText(autosave);
    }

    /** `a id`: goes to activity (database, id) if a database is selected and `loaded` (its keys) has it. */
    method DoA(id: string, loaded: set<Key>, activityName: string)
      requires Valid()
      modifies this
      ensures Valid()
      ensures !Truthy(old(database)) || Key(old(database).value, id) !in loaded ==> unchanged(this)
      ensures Truthy(old(database)) && Key(old(database).value, id) in loaded ==>
        ActivityChosen(Key(old(database).value, id), false, activityName)
    {
      if !Truthy(database) {
        // "No database selected"
      } else if Key(database.value, id) !in loaded {
        // "Invalid activity id"
      } else {
        ChooseActivity(Key(database.value, id), false, activityName);
      }
    }

    /** `db name`: goes to database `name` if it is registered. */
    method DoDb(name: string, registered: set<string>, activityName: string)
      requires Valid()
      modifies this
      ensures Valid()
      ensures name !in registered ==> unchanged(this)
      ensures name in registered ==> DatabaseChosen(name, activityName)
    {
      if name !in registered {
        // "not a valid database"
      } else {
        ChooseDatabase(name, activityName);
      }
    }

    /**
     * `load_project` at start-up: the given project if known, else the saved
     * one, else none and the project listing (`names`) becomes the option
     * list. An unknown given project falls back (see `LoadedProjectAsWritten`).
     */
    method LoadProject(p: Option<string>, known: set<string>, names: seq<string>)
      requires Valid()
      modifies this`project, this`page, this`maxPage, this`options
      ensures Valid()
      ensures project == StartupChoice(p, known, prefs.project)
      ensures project.None? ==> options == ProjectList(names, names) && page == 0
      ensures project.Some? ==> options == old(options) && page == old(page)
    {
      if Truthy(p) && p.value in known {
        project := p;
      } else if Truthy(prefs.project) {
        project := prefs.project;
      } else {
        project := None;
        var _ := ListProjects(names);
      }
    }

    /** `load_database` at start-up: the given database if registered, else the saved one, else none. */
    method LoadDatabase(d: Option<string>, registered: set<string>)
      requires Valid() && activity.None?
      modifies this`database
      decreases if Truthy(d) then 1 else 0
      ensures Valid()
      ensures database == StartupChoice(d, registered, prefs.database)
    {
      if Truthy(d) {
        if d.value !in registered {
          // "Database ... not found"
          LoadDatabase(None, registered);
        } else {
          database := d;
        }
      } else if Truthy(prefs.database) {
        database := prefs.database;
      } else {
        database := None;
      }
    }

    /**
     * `load_activity` at start-up: the given id in the current database, else
     * the saved activity (restored, so the preferences are not rewritten),
     * else none.
     */
    method LoadActivity(id: Option<string>, activityName: string)
      requires Valid()
      requires id.Some? ==> database.Some?
      modifies this
      ensures Valid()
      ensures id.Some? ==>
        activity == Some(Key(old(database).value, id.value))
        && history == old(history) + [ActivityEntry(Key(old(database).value, id.value))]
      ensures id.None? && old(prefs.activity).Some? ==>
        activity == old(prefs.activity) && history == old(history) + [ActivityEntry(old(prefs.activity).value)]
        && prefs == old(prefs) && saved == old(saved)
      ensures id.None? && old(prefs.activity).None? ==> activity == None && history == old(history)
      ensures project == old(project) && autosave == old(autosave)
      ensures activity.Some? ==> database == Some(activity.value.db) && options == NoOptions && page == 0
      ensures activity.None? ==> database == old(database) && options == old(options) && page == old(page)
      ensures activity.None? ==> prompt == old(prompt)
      ensures activity.Some? ==> prompt == PromptText(project, database, activity, activityName)
      ensures if id.Some? && autosave then prefs == old(prefs).(activity := activity, history := Some(Record(history))) && saved == prefs
              else prefs == old(prefs) && saved == old(saved)
    {
      if id.Some? {
        ChooseActivity(Key(database.value, id.value), false, activityName);
      } else if prefs.activity.Some? {
        ChooseActivity(prefs.activity.value, true, activityName);
      } else {
        UnknownActivity();
      }
    }
  }
}
