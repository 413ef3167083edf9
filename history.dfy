/**
 * The browser history: the `(kind, object)` entries the browser appends,
 * the list form they take in the preferences file, `reformat_history`
 * which reads them back, the last-ten window that is persisted, and
 * `format_history` which labels an entry for the `h` listing.
 */
module History {
  import opened Wrappers
  import opened PySeq

  /** An activity key: the (database, code) pair the data layer identifies an activity by. */
  datatype Key = Key(db: string, id: string)

  /** One history entry; the source's `(kind, object)` tuple. */
  datatype Entry =
    | ProjectEntry(name: string)
    | DatabaseEntry(name: string)
    | ActivityEntry(key: Key)
      /** A kind the browser never writes, read back from a preferences file. */
    | OtherEntry(kind: string, name: string)

  function Kind(e: Entry): string {
    match e
    case ProjectEntry(_) => "project"
    case DatabaseEntry(_) => "database"
    case ActivityEntry(_) => "activity"
    case OtherEntry(k, _) => k
  }

  /** An OtherEntry really has another kind: no entry has two readings. */
  predicate WellFormed(e: Entry) {
    e.OtherEntry? ==> e.kind != "project" && e.kind != "database" && e.kind != "activity"
  }

  predicate AllWellFormed(h: seq<Entry>) {
    forall e <- h :: WellFormed(e)
  }

  /** The JSON values the preferences file holds: strings and lists (tuples are written as lists). */
  datatype Json = JStr(str: string) | JArr(items: seq<Json>)

  /** The list form an entry takes when the preferences are written. */
  function Encode(e: Entry): (j: Json)
    ensures j.JArr? && |j.items| == 2 && j.items[0] == JStr(Kind(e))
    ensures j.items[1].JArr? <==> e.ActivityEntry?
  {
    match e
    case ProjectEntry(n) => JArr([JStr("project"), JStr(n)])
    case DatabaseEntry(n) => JArr([JStr("database"), JStr(n)])
    case ActivityEntry(k) => JArr([JStr("activity"), JArr([JStr(k.db), JStr(k.id)])])
    case OtherEntry(kind, n) => JArr([JStr(kind), JStr(n)])
  }

  /** `tuple(x)` for a two-element `[kind, name]` list whose kind is not "activity". */
  function EntryOf(kind: string, name: string): (e: Entry)
    requires kind != "activity"
    ensures Kind(e) == kind && WellFormed(e) && !e.ActivityEntry?
    ensures Encode(e) == JArr([JStr(kind), JStr(name)])
  {
    if kind == "project" then ProjectEntry(name)
    else if kind == "database" then DatabaseEntry(name)
    else OtherEntry(kind, name)
  }

  /**
   * One step of `reformat_history`: an "activity" entry gets its key turned
   * into a tuple, any other entry is turned into a tuple as it is. Lists of
   * other shapes are outside the model (None).
   */
  function Reformat(x: Json): (r: Option<Entry>)
    ensures r.Some? ==> WellFormed(r.value) && Encode(r.value) == x
  {
    match x
    case JStr(_) => None
    case JArr(items) =>
      if |items| != 2 || !items[0].JStr? then None
      else if items[0].str == "activity" then
        match items[1]
        case JArr(k) =>
          if |k| == 2 && k[0].JStr? && k[1].JStr? then
            assert items == [items[0], items[1]] && k == [k[0], k[1]];
            Some(ActivityEntry(Key(k[0].str, k[1].str)))
          else None
        case JStr(_) => None
      else if items[1].JStr? then
        assert items == [items[0], items[1]];
        Some(EntryOf(items[0].str, items[1].str))
      else None
  }

  /** Reading back what Encode wrote gives the entry again. */
  lemma ReformatEncode(e: Entry)
    requires WellFormed(e)
    ensures Reformat(Encode(e)) == Some(e)
  {
  }

  /** `reformat_history`: the list comprehension over the stored history. */
  function ReformatHistory(js: seq<Json>): (r: Option<seq<Entry>>)
    ensures r.Some? <==> forall i :: 0 <= i < |js| ==> Reformat(js[i]).Some?
    ensures r.Some? ==> |r.value| == |js| && AllWellFormed(r.value)
    ensures r.Some? ==> forall i :: 0 <= i < |js| ==> Encode(r.value[i]) == js[i]
  {
    if forall i :: 0 <= i < |js| ==> Reformat(js[i]).Some? then
      Some(seq(|js|, i requires 0 <= i < |js| => Reformat(js[i]).value))
    else None
  }

  /** How many entries are persisted. */
  const Persisted: nat := 10

  /** `history[-10:]`: the most recent entries, oldest first. */
  function Recent(h: seq<Entry>): (r: seq<Entry>)
    ensures |r| == Min(Persisted, |h|)
    ensures r == h[|h| - |r|..]
  {
    SliceFrom(h, -(Persisted as int))
  }

  /** The value `ab_history` holds after a save: the recent window in list form. */
  function Record(h: seq<Entry>): (r: seq<Json>)
    ensures |r| == Min(Persisted, |h|)
  {
    var w := Recent(h);
    seq(|w|, i requires 0 <= i < |w| => Encode(w[i]))
  }

  /** What the next session reads back from a saved history is its recent window. */
  lemma {:induction false} RecordRoundTrip(h: seq<Entry>)
    requires AllWellFormed(h)
    ensures ReformatHistory(Record(h)) == Some(Recent(h))
  {
    var w := Recent(h);
    var js := Record(h);
    forall i | 0 <= i < |js|
      ensures Reformat(js[i]) == Some(w[i])
    {
      assert w[i] in h;
      ReformatEncode(w[i]);
    }
    assert ReformatHistory(js).value == w;
  }

  /** Appending one entry moves the persisted window by one, and it always ends with that entry. */
  lemma {:induction false} RecentAppend(h: seq<Entry>, e: Entry)
    ensures Recent(h + [e]) == (if |h| < Persisted then h else Recent(h)[1..]) + [e]
  {
    var h' := h + [e];
    if |h| >= Persisted {
      assert h'[|h'| - Persisted..] == h[|h| - Persisted + 1..] + [e];
    } else {
      assert h'[0..] == h';
    }
  }

  /**
   * `format_history`. A database entry reads "Db: name"; every other entry
   * goes to `format_activity` (`describe`, the data layer's label of a key,
   * None where the lookup raises). A project or foreign entry carries a
   * string, which `format_activity` indexes as if it were a key: its first
   * and second characters; a name shorter than two characters raises.
   */
  function FormatHistory(e: Entry, describe: Key -> Option<string>): (r: Option<string>)
    ensures e.DatabaseEntry? ==> r == Some("Db: " + e.name)
    ensures r.Some? && !e.DatabaseEntry? ==> "Act: " <= r.value
    ensures e.ActivityEntry? ==> r == ActivityLabel(e.key, describe)
    ensures (e.ProjectEntry? || e.OtherEntry?) && |e.name| < 2 ==> r.None?
    ensures (e.ProjectEntry? || e.OtherEntry?) && |e.name| >= 2 ==>
      r == ActivityLabel(Key(e.name[..1], e.name[1..2]), describe)
  {
    match e
    case DatabaseEntry(n) => Some("Db: " + n)
    case ActivityEntry(k) => ActivityLabel(k, describe)
    case ProjectEntry(n) => if |n| < 2 then None else ActivityLabel(Key(n[..1], n[1..2]), describe)
    case OtherEntry(_, n) => if |n| < 2 then None else ActivityLabel(Key(n[..1], n[1..2]), describe)
  }

  /** `format_activity`: "Act: " and the data layer's label; None where the lookup raises. */
  function ActivityLabel(k: Key, describe: Key -> Option<string>): (r: Option<string>)
    ensures r.Some? <==> describe(k).Some?
    ensures r.Some? ==> r.value == "Act: " + describe(k).value
  {
    match describe(k)
    case Some(s) => Some("Act: " + s)
    case None => None
  }

  /** The comprehension `[format_history(o) for o in es]`; None if any entry raises. */
  function FormatHistoryList(es: seq<Entry>, describe: Key -> Option<string>): (r: Option<seq<string>>)
    ensures r.Some? <==> forall i :: 0 <= i < |es| ==> FormatHistory(es[i], describe).Some?
    ensures r.Some? ==> |r.value| == |es|
    ensures r.Some? ==> forall i :: 0 <= i < |es| ==> Some(r.value[i]) == FormatHistory(es[i], describe)
  {
    if forall i :: 0 <= i < |es| ==> FormatHistory(es[i], describe).Some? then
      Some(seq(|es|, i requires 0 <= i < |es| => FormatHistory(es[i], describe).value))
    else None
  }
}
