/**
 * The fetch-history page (frontend/src/components/FetchHistory.tsx): it asks
 * for one page of ten fetch records, optionally restricted to a picked date
 * range, and counts the records of that page by status.
 *
 * The backend's answer is `FetchHistoryViewSet.get_queryset`
 * (backend/news/views.py), which reads only `days`: the range the page sends
 * is ignored. `ServedAsWritten` models that query, `ServedInRange` the range
 * filter the page evidently expects.
 */
module FetchHistory {
  import opened Wrappers
  import opened Dates
  import opened Sorting
  import opened NewsServices
  import opened NewsViews

  const PageSize: nat := 10

  /** The query parameters of `getFetchHistory`. */
  datatype HistoryParams = HistoryParams(page: nat, pageSize: nat, startDate: Option<string>, endDate: Option<string>)

  /** A picked range: its first and last day. */
  datatype Range = Range(start: Date, end: Date)

  predicate ValidRange(range: Option<Range>)
  {
    range.Some? ==> Valid(range.value.start) && Valid(range.value.end)
  }

  /** The parameters of `loadHistory(page)`: `start_date` and `end_date` as YYYY-MM-DD, only when a range is set. */
  function Params(page: nat, range: Option<Range>): (p: HistoryParams)
    requires ValidRange(range)
    ensures p.page == page && p.pageSize == PageSize
    ensures p.startDate.Some? <==> range.Some?
    ensures p.endDate.Some? <==> range.Some?
  {
    if range.Some? then HistoryParams(page, PageSize, Some(Iso(range.value.start)), Some(Iso(range.value.end)))
    else HistoryParams(page, PageSize, None, None)
  }

  /** The dates sent read back, with the server's `%Y-%m-%d`, as the range picked. */
  lemma ParamsReadBack(page: nat, range: Option<Range>)
    requires ValidRange(range) && range.Some?
    ensures var p := Params(page, range);
      Strptime(p.startDate.value, IsoFormat) == Some(range.value.start) && Strptime(p.endDate.value, IsoFormat) == Some(range.value.end)
  {
    IsoRoundTrip(range.value.start);
    IsoRoundTrip(range.value.end);
  }

  // ---------------------------------------------------------------------------
  // The status counts
  // ---------------------------------------------------------------------------

  /** `statsData`. */
  datatype PageStats = PageStats(total: nat, success: nat, failed: nat, partial: nat)

  predicate HasStatus(x: FetchRecord, status: string)
  {
    x.status == status
  }

  function CountStatus(results: seq<FetchRecord>, status: string): (n: nat)
    ensures n <= |results|
  {
    |Filter(results, (x: FetchRecord) => HasStatus(x, status))|
  }

  /** The counts of one page of results. */
  function StatsOf(results: seq<FetchRecord>): PageStats
  {
    PageStats(|results|, CountStatus(results, "success"), CountStatus(results, "failed"), CountStatus(results, "partial"))
  }

  /** The statuses `FetchHistory.status` is typed with. */
  predicate Typed(x: FetchRecord)
  {
    x.status in ["success", "failed", "partial"]
  }

  /** Counting a list by status is counting its first record, then the rest. */
  lemma CountStatusCons(results: seq<FetchRecord>, status: string)
    requires results != []
    ensures CountStatus(results, status) == (if results[0].status == status then 1 else 0) + CountStatus(results[1..], status)
  {
  }

  /**
   * The three status counts never exceed the number of results, and they add
   * up to it exactly when every record has one of the typed statuses.
   */
  lemma {:induction false} StatsPartition(results: seq<FetchRecord>)
    ensures var s := StatsOf(results);
      && s.total == |results|
      && s.success + s.failed + s.partial <= s.total
      && (s.success + s.failed + s.partial == s.total <==> forall x :: x in results ==> Typed(x))
  {
    if results != [] {
      var rest := results[1..];
      StatsPartition(rest);
      CountStatusCons(results, "success");
      CountStatusCons(results, "failed");
      CountStatusCons(results, "partial");
      var a, b := StatsOf(results), StatsOf(rest);
      assert a.success + a.failed + a.partial == b.success + b.failed + b.partial + (if Typed(results[0]) then 1 else 0);
      assert results == [results[0]] + rest;
      assert (forall x :: x in results ==> Typed(x)) <==> Typed(results[0]) && forall x :: x in rest ==> Typed(x);
    }
  }

  // ---------------------------------------------------------------------------
  // Status colours and icons
  // ---------------------------------------------------------------------------

  /** `getStatusColor`: the tag colour of a status. */
  function StatusColor(status: string): (c: string)
  {
    match status
    case "success" => "success"
    case "failed" => "error"
    case "partial" => "warning"
    case _ => "default"
  }

  datatype StatusGlyph = CheckCircle | CloseCircle | ExclamationCircle

  /** `getStatusIcon`: an icon and its colour, none for an untyped status. */
  function StatusIcon(status: string): (i: Option<(StatusGlyph, string)>)
  {
    match status
    case "success" => Some((CheckCircle, "#52c41a"))
    case "failed" => Some((CloseCircle, "#ff4d4f"))
    case "partial" => Some((ExclamationCircle, "#faad14"))
    case _ => None
  }

  /**
   * The three typed statuses get three different colours and icons; any
   * other status gets the default colour and no icon.
   */
  lemma StatusLooks(a: string, b: string)
    ensures StatusColor(a) == "default" <==> a !in ["success", "failed", "partial"]
    ensures StatusIcon(a).None? <==> a !in ["success", "failed", "partial"]
    ensures a in ["success", "failed", "partial"] && b in ["success", "failed", "partial"] && a != b ==>
              StatusColor(a) != StatusColor(b) && StatusIcon(a) != StatusIcon(b)
  {
  }

  // ---------------------------------------------------------------------------
  // Loading a page
  // ---------------------------------------------------------------------------

  /** The page's state. */
  datatype HistoryPage = HistoryPage(
    history: seq<FetchRecord>, total: int, currentPage: nat, stats: PageStats, range: Option<Range>,
    loading: bool, requests: seq<HistoryParams>, errors: nat)

  /** The state before the first load: page 1, no range, nothing counted. */
  const Initial: HistoryPage := HistoryPage([], 0, 1, PageStats(0, 0, 0, 0), None, true, [], 0)

  /** The response: its `results` and `count`, either of which may be missing. */
  datatype HistoryReply = HistoryReply(results: Option<seq<FetchRecord>>, count: Option<int>)

  /**
   * `loadHistory(page)`: sends the parameters, then on a reply shows its
   * results (`|| []`), its count (`|| 0`) and the page, and counts the
   * results by status; a failed request only counts an error.
   */
  function LoadHistory(s: HistoryPage, page: nat, reply: Option<HistoryReply>): (t: HistoryPage)
    requires ValidRange(s.range)
    ensures t.requests == s.requests + [Params(page, s.range)] && !t.loading && t.range == s.range
    ensures reply.None? ==> t == s.(loading := false, requests := t.requests, errors := s.errors + 1)
    ensures reply.Some? ==>
              && t.errors == s.errors && t.currentPage == page
              && t.history == (if reply.value.results.Some? then reply.value.results.value else [])
              && t.total == (if reply.value.count.Some? then reply.value.count.value else 0)
  {
    var sent := s.(loading := true, requests := s.requests + [Params(page, s.range)]);
    var done := if reply.None? then sent.(errors := sent.errors + 1)
      else
        var results := if reply.value.results.Some? then reply.value.results.value else [];
        var count := if reply.value.count.Some? then reply.value.count.value else 0;
        sent.(history := results, total := count, currentPage := page, stats := StatsOf(results));
    done.(loading := false)
  }

  /** Picking a range reloads the first page with it (the `useEffect` on `dateRange`). */
  function PickRange(s: HistoryPage, range: Option<Range>, reply: Option<HistoryReply>): (t: HistoryPage)
    requires ValidRange(range)
    ensures t.range == range && t.requests == s.requests + [Params(1, range)]
    ensures reply.Some? ==> t.currentPage == 1
  {
    LoadHistory(s.(range := range), 1, reply)
  }

  /**
   * After a load the counts describe exactly the records shown: the total
   * card of the status row is the page's length, not the server's `count`,
   * and the three status counts split it when every status is typed.
   */
  lemma LoadedStats(s: HistoryPage, page: nat, reply: Option<HistoryReply>)
    requires ValidRange(s.range) && s.stats == StatsOf(s.history)
    ensures var t := LoadHistory(s, page, reply);
      && t.stats == StatsOf(t.history)
      && t.stats.total == |t.history|
      && t.stats.success + t.stats.failed + t.stats.partial <= t.stats.total
      && (reply.Some? && reply.value.results.None? ==> t.history == [] && t.stats == PageStats(0, 0, 0, 0))
  {
    var t := LoadHistory(s, page, reply);
    StatsPartition(t.history);
  }

  // ---------------------------------------------------------------------------
  // What the server lists for the parameters
  // ---------------------------------------------------------------------------

  /** As written: `get_queryset` reads no `start_date` or `end_date`, and without `days` keeps the last 30 days. */
  function ServedAsWritten(h: seq<FetchRecord>, p: HistoryParams, today: int): (r: seq<FetchRecord>)
    ensures forall x :: x in r <==> x in h && x.fetchDate >= today - 30
  {
    HistoryQueryFacts(h, None, today);
    HistoryQuery(h, None, today)
  }

  /** A picked range as day numbers, when both dates read back with `%Y-%m-%d`. */
  function Bounds(p: HistoryParams): (b: Option<(int, int)>)
  {
    if p.startDate.None? || p.endDate.None? then None
    else
      var start, end := Strptime(p.startDate.value, IsoFormat), Strptime(p.endDate.value, IsoFormat);
      if start.Some? && end.Some? && Valid(start.value) && Valid(end.value) then Some((Ordinal(start.value), Ordinal(end.value)))
      else None
  }

  predicate Between(x: FetchRecord, lo: int, hi: int)
  {
    lo <= x.fetchDate <= hi
  }

  /** Corrected: a range that reads back selects its days, both ends included; otherwise the 30-day default applies. */
  function ServedInRange(h: seq<FetchRecord>, p: HistoryParams, today: int): (r: seq<FetchRecord>)
    ensures forall x :: x in r ==> x in h
  {
    match Bounds(p)
    case Some((lo, hi)) =>
      var f := Filter(h, (x: FetchRecord) => Between(x, lo, hi));
      assert forall x :: x in SortDesc(f, ByFetchDate) ==> x in multiset(f);
      SortDesc(f, ByFetchDate)
    case None => ServedAsWritten(h, p, today)
  }

  /**
   * With a range picked on the page, the corrected query lists exactly the
   * records from its first to its last day, whatever their age, newest
   * first; without one it is the 30-day default.
   */
  lemma ServedInRangeFacts(h: seq<FetchRecord>, page: nat, range: Option<Range>, today: int)
    requires ValidRange(range)
    ensures var r := ServedInRange(h, Params(page, range), today);
      && (range.Some? ==> forall x :: x in r <==> x in h && Ordinal(range.value.start) <= x.fetchDate <= Ordinal(range.value.end))
      && (range.None? ==> r == ServedAsWritten(h, Params(page, range), today))
      && SortedDesc(r, ByFetchDate)
  {
    var p := Params(page, range);
    if range.Some? {
      ParamsReadBack(page, range);
      var lo, hi := Ordinal(range.value.start), Ordinal(range.value.end);
      assert Bounds(p) == Some((lo, hi));
      BetweenSorted(h, lo, hi);
    } else {
      HistoryQueryFacts(h, None, today);
    }
  }

  /** The records from day `lo` to day `hi`, newest first. */
  lemma BetweenSorted(h: seq<FetchRecord>, lo: int, hi: int)
    ensures var r := SortDesc(Filter(h, (x: FetchRecord) => Between(x, lo, hi)), ByFetchDate);
      && (forall x :: x in r <==> x in h && lo <= x.fetchDate <= hi)
      && SortedDesc(r, ByFetchDate)
  {
    var f := Filter(h, (x: FetchRecord) => Between(x, lo, hi));
    var r := SortDesc(f, ByFetchDate);
    forall x ensures x in r <==> x in f {
      assert x in r <==> x in multiset(r);
      assert x in f <==> x in multiset(f);
    }
    SortDescSorted(f, ByFetchDate);
  }

  /**
   * The discrepancy: for a picked range, a record of the last 30 days after
   * the range's last day is still listed, and a record inside the range but
   * older than 30 days is not.
   */
  lemma RangeIgnored(h: seq<FetchRecord>, page: nat, range: Range, today: int, x: FetchRecord)
    requires ValidRange(Some(range)) && x in h
    ensures x.fetchDate >= today - 30 && x.fetchDate > Ordinal(range.end) ==>
              x in ServedAsWritten(h, Params(page, Some(range)), today) && x !in ServedInRange(h, Params(page, Some(range)), today)
    ensures Ordinal(range.start) <= x.fetchDate <= Ordinal(range.end) && x.fetchDate < today - 30 ==>
              x !in ServedAsWritten(h, Params(page, Some(range)), today) && x in ServedInRange(h, Params(page, Some(range)), today)
  {
    ServedInRangeFacts(h, page, Some(range), today);
  }
}
