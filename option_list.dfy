/**
 * The current option list of the browser (`current_options`), its pager
 * arithmetic, the screen `print_current_options` prints, and the routing
 * `choose_option` performs on a selected index.
 */
module OptionList {
  import opened Wrappers
  import opened PySeq
  import opened History

  /** `page_size`. */
  const PageSize: nat := 20

  /** One row of the database listing: its name and its `number` metadata, if any. */
  datatype DbEntry = DbEntry(name: string, number: Option<string>)

  /** `current_options`: a kind tag with parallel `options` and `formatted` lists, or no list at all. */
  datatype Options =
    | NoOptions
    | ProjectList(names: seq<string>, formatted: seq<string>)
    | DatabaseList(names: seq<string>, formatted: seq<string>)
    | ActivityList(keys: seq<Key>, formatted: seq<string>)
    | HistoryList(entries: seq<Entry>, formatted: seq<string>)

  /** `current_options.get('formatted', [])`. */
  function Labels(o: Options): (r: seq<string>)
    ensures o.NoOptions? ==> r == []
    ensures !o.NoOptions? ==> r == o.formatted
  {
    if o.NoOptions? then [] else o.formatted
  }

  /** Every list the browser builds has one label per option. */
  predicate Parallel(o: Options) {
    match o
    case NoOptions => true
    case ProjectList(names, formatted) => |names| == |formatted|
    case DatabaseList(names, formatted) => |names| == |formatted|
    case ActivityList(keys, formatted) => |keys| == |formatted|
    case HistoryList(entries, formatted) => |entries| == |formatted|
  }

  /**
   * `max_page` for a list of `n` labels: `int(math.ceil(n / page_size))`
   * under Python 2, where `/` on two ints already truncates.
   */
  function MaxPage(n: nat): (r: nat)
    ensures r * PageSize <= n < (r + 1) * PageSize
  {
    n / PageSize
  }

  /** The database listing `list_databases` builds from `sorted(databases.list)`. */
  function DatabaseOptions(listing: seq<DbEntry>): (o: Options)
    ensures o.DatabaseList? && Parallel(o) && |o.names| == |listing|
    ensures forall i :: 0 <= i < |listing| ==> o.names[i] == listing[i].name
    ensures forall i :: 0 <= i < |listing| ==> o.formatted[i] == DatabaseLabel(listing[i])
  {
    DatabaseList(
      seq(|listing|, i requires 0 <= i < |listing| => listing[i].name),
      seq(|listing|, i requires 0 <= i < |listing| => DatabaseLabel(listing[i])))
  }

  /** "%(name)s (%(number)s activities/flows)", with "unknown" for a missing number. */
  function DatabaseLabel(e: DbEntry): (r: string)
    ensures e.name + " (" <= r
    ensures |r| == |e.name| + |e.number.GetOr("unknown")| + 20
    ensures r[|e.name| + 2..|r| - 18] == e.number.GetOr("unknown")
    ensures r[|r| - 18..] == " activities/flows)"
  {
    e.name + " (" + e.number.GetOr("unknown") + " activities/flows)"
  }

  // ---------------------------------------------------------------------
  // Decimal rendering of `%i`
  // ---------------------------------------------------------------------

  function Digit(d: nat): char
    requires d < 10
  {
    "0123456789"[d]
  }

  function DigitValue(c: char): nat {
    if '0' <= c <= '9' then (c as int - '0' as int) as nat else 0
  }

  /** `%i` of a non-negative integer. */
  function NatToString(n: nat): (s: string)
    ensures |s| >= 1
    ensures forall c <- s :: '0' <= c <= '9'
  {
    if n < 10 then [Digit(n)] else NatToString(n / 10) + [Digit(n % 10)]
  }

  /** The number a string of decimal digits denotes. */
  function DecimalValue(s: string): nat {
    if s == [] then 0 else 10 * DecimalValue(s[..|s| - 1]) + DigitValue(s[|s| - 1])
  }

  /** `%i` can be read back: distinct indices get distinct labels. */
  lemma {:induction false} NatToStringRoundTrip(n: nat)
    ensures DecimalValue(NatToString(n)) == n
  {
    var s := NatToString(n);
    if n >= 10 {
      NatToStringRoundTrip(n / 10);
      assert s[..|s| - 1] == NatToString(n / 10);
    }
  }

  // ---------------------------------------------------------------------
  // The screen printed by print_current_options
  // ---------------------------------------------------------------------

  /** "[%(index)i]: %(option)s". */
  function ItemLine(index: nat, text: string): string {
    "[" + NatToString(index) + "]: " + text
  }

  /** `enumerate(labels)` printed with `offset` added to each index. */
  function Enumerated(labels: seq<string>, offset: nat): (r: seq<string>)
    ensures |r| == |labels|
    ensures forall k :: 0 <= k < |labels| ==> r[k] == ItemLine(offset + k, labels[k])
  {
    seq(|labels|, k requires 0 <= k < |labels| => ItemLine(offset + k, labels[k]))
  }

  /** The paging footer: the current page, then `FooterTail`. */
  function Footer(page: nat, maxPage: nat): (r: string)
    ensures var p := NatToString(page);
      && |r| >= 6 + |p| && r[..6] == "\nPage "
      && DecimalValue(r[6..6 + |p|]) == page
      && r[6 + |p|..] == FooterTail(maxPage)
  {
    var p := NatToString(page);
    var r := "\nPage " + p + FooterTail(maxPage);
    NatToStringRoundTrip(page);
    assert r[6..6 + |p|] == p;
    r
  }

  /** The rest of the footer: the last page and the navigation hint. */
  function FooterTail(maxPage: nat): (r: string)
    ensures var m := NatToString(maxPage);
      && |r| >= 4 + |m| && r[..4] == " of "
      && DecimalValue(r[4..4 + |m|]) == maxPage
  {
    var m := NatToString(maxPage);
    var r := " of " + m + ". Use n (next page) and p (previous page) to navigate.";
    NatToStringRoundTrip(maxPage);
    assert r[4..4 + |m|] == m;
    r
  }

  /** The item lines: one page of the list when paged, the whole list otherwise. */
  function ListedItems(labels: seq<string>, page: nat, maxPage: nat): (r: seq<string>)
    ensures |r| <= |labels|
    ensures maxPage != 0 ==> |r| <= PageSize
    ensures maxPage == 0 ==> |r| == |labels|
  {
    if maxPage != 0 then
      Enumerated(Slice(labels, page * PageSize, (page + 1) * PageSize), page * PageSize)
    else Enumerated(labels, 0)
  }

  /**
   * Everything `print_current_options(label)` prints, one element per
   * `print` call; an empty caption stands for no label.
   */
  function Screen(caption: string, o: Options, page: nat, maxPage: nat): (r: seq<string>)
    ensures |r| >= 3 && r[0] == "" && r[|r| - 1] == ""
    ensures caption != "" ==> r[1] == caption + "\n"
    ensures var start := if caption != "" then 2 else 1;
      r[start..|r| - 1] == ScreenBody(Labels(o), page, maxPage)
  {
    [""] + (if caption != "" then [caption + "\n"] else []) + ScreenBody(Labels(o), page, maxPage) + [""]
  }

  /** The part of the screen between the caption and the closing blank line. */
  function ScreenBody(labels: seq<string>, page: nat, maxPage: nat): (r: seq<string>)
    ensures |r| >= 1
    ensures labels == [] ==> r == ["Empty list"]
    ensures labels != [] && maxPage == 0 ==>
      |r| == |labels| && forall k :: 0 <= k < |labels| ==> r[k] == ItemLine(k, labels[k])
    ensures labels != [] && maxPage != 0 ==> r[|r| - 1] == Footer(page, maxPage) && |r| <= PageSize + 1
  {
    if labels == [] then ["Empty list"]
    else if maxPage != 0 then ListedItems(labels, page, maxPage) + [Footer(page, maxPage)]
    else ListedItems(labels, 0, 0)
  }

  /** The integers lo, lo+1, ..., hi-1. */
  function Range(lo: int, hi: int): (r: seq<int>)
    decreases hi - lo
    ensures |r| == Max(0, hi - lo)
    ensures forall k :: 0 <= k < |r| ==> r[k] == lo + k
  {
    if lo >= hi then [] else [lo] + Range(lo + 1, hi)
  }

  /** The global indices the listing labels its lines with. */
  function Shown(n: nat, page: nat, maxPage: nat): (r: seq<int>)
    ensures forall k :: 0 <= k < |r| ==> 0 <= r[k] < n
    ensures maxPage == 0 ==> |r| == n
    ensures maxPage != 0 ==> |r| <= PageSize && forall k :: 0 <= k < |r| ==> r[k] / PageSize == page
  {
    if maxPage == 0 then Range(0, n)
    else Range(page * PageSize, Min(n, (page + 1) * PageSize))
  }

  /**
   * The listing labels each shown index with its own entry: line k of the
   * items is `[i]: labels[i]` for the k-th shown index i.
   */
  lemma {:induction false} ListedItemsAreShown(labels: seq<string>, page: nat, maxPage: nat)
    requires page <= maxPage == MaxPage(|labels|)
    ensures var idx := Shown(|labels|, page, maxPage);
            |ListedItems(labels, page, maxPage)| == |idx|
            && forall k :: 0 <= k < |idx| ==>
                 0 <= idx[k] < |labels| && ListedItems(labels, page, maxPage)[k] == ItemLine(idx[k], labels[idx[k]])
  {
    if maxPage != 0 {
      PageStartInside(|labels|, page);
      ItemsFrom(labels, page * PageSize, (page + 1) * PageSize);
    } else {
      ItemsFrom(labels, 0, |labels|);
      assert Slice(labels, 0, |labels|) == labels;
    }
  }

  /** The item lines of `labels[begin..end]` label the indices from `begin` on. */
  lemma ItemsFrom(labels: seq<string>, begin: nat, end: nat)
    requires begin <= |labels| && begin <= end
    ensures var idx := Range(begin, Min(|labels|, end));
            var items := Enumerated(Slice(labels, begin, end), begin);
            |items| == |idx|
            && forall k :: 0 <= k < |idx| ==> 0 <= idx[k] < |labels| && items[k] == ItemLine(idx[k], labels[idx[k]])
  {
    var slice := Slice(labels, begin, end);
    var idx := Range(begin, Min(|labels|, end));
    assert |slice| == |idx|;
    forall k | 0 <= k < |idx|
      ensures Enumerated(slice, begin)[k] == ItemLine(idx[k], labels[idx[k]])
    {
      assert idx[k] == begin + k && slice[k] == labels[begin + k];
      assert Enumerated(slice, begin)[k] == ItemLine(begin + k, slice[k]);
    }
  }

  /** The first index of every page up to max_page lies inside the list (or at its end). */
  lemma PageStartInside(n: nat, page: nat)
    requires page <= MaxPage(n)
    ensures page * PageSize <= n
  {
    assert page * PageSize <= (n / PageSize) * PageSize;
  }

  /** A paged listing shows min(20, n - page*20) lines; an unpaged one shows all n, and n < 20. */
  lemma ShownCount(n: nat, page: nat)
    requires page <= MaxPage(n)
    ensures MaxPage(n) != 0 ==> |Shown(n, page, MaxPage(n))| == Min(PageSize, n - page * PageSize)
    ensures MaxPage(n) == 0 ==> Shown(n, page, 0) == Range(0, n) && n < PageSize
  {
    PageStartInside(n, page);
  }

  /**
   * The pages 0..max_page partition the indices 0..n-1: index i is shown on
   * page i / 20 and on no other page.
   */
  lemma {:induction false} PagesPartition(n: nat, i: int, p: nat)
    requires MaxPage(n) != 0 && 0 <= i < n && p <= MaxPage(n)
    ensures i / PageSize <= MaxPage(n)
    ensures i in Shown(n, i / PageSize, MaxPage(n))
    ensures i in Shown(n, p, MaxPage(n)) ==> p == i / PageSize
  {
    var m := MaxPage(n);
    var q := i / PageSize;
    assert q * PageSize <= i < (q + 1) * PageSize;
    DivMonotone(i, n);
    var s := Shown(n, q, m);
    assert s[i - q * PageSize] == i;
    if i in Shown(n, p, m) {
      var t := Shown(n, p, m);
      var k :| 0 <= k < |t| && t[k] == i;
      assert p * PageSize <= i < (p + 1) * PageSize;
      DivUnique(i, p);
    }
  }

  lemma DivMonotone(i: nat, n: nat)
    requires i <= n
    ensures i / PageSize <= n / PageSize
  {
  }

  lemma DivUnique(i: nat, p: nat)
    requires p * PageSize <= i < (p + 1) * PageSize
    ensures i / PageSize == p
  {
  }

  /**
   * Under Python 2 division a list whose length is a positive multiple of 20
   * has an empty last page: `n` leads to a page that lists nothing.
   */
  lemma LastPageEmptyOnMultiple(n: nat)
    requires n > 0 && n % PageSize == 0
    ensures MaxPage(n) != 0 && Shown(n, MaxPage(n), MaxPage(n)) == []
  {
  }

  // ---------------------------------------------------------------------
  // choose_option routing
  // ---------------------------------------------------------------------

  /** Where `choose_option` sends a selection. */
  datatype Target = NoTarget | ToProject(name: string) | ToDatabase(name: string) | ToActivity(key: Key)

  /**
   * The routing of `choose_option(index)`: an index at or past the number of
   * labels is refused; otherwise the option at that Python index (a negative
   * index counts from the end; one below -len raises and is swallowed) goes
   * to the chooser of the list's kind. A history entry goes to the database
   * or activity chooser by its kind; entries of other kinds are ignored.
   */
  function Route(o: Options, index: int): (t: Target)
    requires Parallel(o)
    ensures index >= |Labels(o)| ==> t == NoTarget
    ensures ListIndex(index, |Labels(o)|).None? ==> t == NoTarget
    ensures t.ToProject? ==> o.ProjectList? && t.name in o.names
    ensures t.ToDatabase? ==>
      (o.DatabaseList? && t.name in o.names) || (o.HistoryList? && DatabaseEntry(t.name) in o.entries)
    ensures t.ToActivity? ==>
      (o.ActivityList? && t.key in o.keys) || (o.HistoryList? && ActivityEntry(t.key) in o.entries)
    ensures o.HistoryList? && t == NoTarget && ListIndex(index, |o.entries|).Some? && index < |o.entries| ==>
      var e := o.entries[ListIndex(index, |o.entries|).value]; e.ProjectEntry? || e.OtherEntry?
  {
    if index >= |Labels(o)| then NoTarget
    else
      match o
      case NoOptions => NoTarget
      case ProjectList(names, _) =>
        (match ListIndex(index, |names|) case Some(j) => ToProject(names[j]) case None => NoTarget)
      case DatabaseList(names, _) =>
        (match ListIndex(index, |names|) case Some(j) => ToDatabase(names[j]) case None => NoTarget)
      case ActivityList(keys, _) =>
        (match ListIndex(index, |keys|) case Some(j) => ToActivity(keys[j]) case None => NoTarget)
      case HistoryList(entries, _) =>
        match ListIndex(index, |entries|)
        case None => NoTarget
        case Some(j) =>
          HistoryTarget(entries[j])
  }

  /** Where a history entry leads: databases and activities are chosen again, other entries are ignored. */
  function HistoryTarget(e: Entry): (t: Target)
    ensures t.ToDatabase? <==> e.DatabaseEntry?
    ensures t.ToActivity? <==> e.ActivityEntry?
    ensures e.DatabaseEntry? ==> t.name == e.name
    ensures e.ActivityEntry? ==> t.key == e.key
  {
    match e
    case DatabaseEntry(d) => ToDatabase(d)
    case ActivityEntry(k) => ToActivity(k)
    case _ => NoTarget
  }

  /**
   * An index below the number of labels that names a position (counting
   * from the end when negative) selects exactly the option at that position;
   * in a history list the entry's kind picks the chooser and a project or
   * foreign entry selects nothing.
   */
  lemma RouteSelects(o: Options, index: int)
    requires Parallel(o) && index < |Labels(o)| && ListIndex(index, |Labels(o)|).Some?
    ensures var j := ListIndex(index, |Labels(o)|).value;
      && (o.ProjectList? ==> Route(o, index) == ToProject(o.names[j]))
      && (o.DatabaseList? ==> Route(o, index) == ToDatabase(o.names[j]))
      && (o.ActivityList? ==> Route(o, index) == ToActivity(o.keys[j]))
      && (o.HistoryList? ==> Route(o, index) == HistoryTarget(o.entries[j]))
  {
  }
}
