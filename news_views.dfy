/**
 * The news API views (backend/news/views.py): the news list with its query
 * filters, the statistics, the fetch-history list, and the fetch trigger.
 * Query parameters are strings, absent as None; times are seconds and dates
 * day numbers (`Day`), in one time zone.
 */
module NewsViews {
  import opened Wrappers
  import opened Text
  import opened Sorting
  import opened Counting
  import opened NewsServices

  const DaySeconds: int := 86400

  /** The calendar day of a time. */
  function Day(t: int): (d: int)
  {
    t / DaySeconds
  }

  // ---------------------------------------------------------------------------
  // NewsItemViewSet.get_queryset
  // ---------------------------------------------------------------------------

  datatype NewsParams = NewsParams(days: Option<string>, category: Option<string>, importance: Option<string>, search: Option<string>)

  /** A query parameter that is present and, as Python tests it, not empty. */
  predicate Given(p: Option<string>)
  {
    p.Some? && p.value != ""
  }

  /** The `days` window the list applies: only when given and an integer. */
  function DaysWindow(days: Option<string>): (r: Option<int>)
  {
    if Given(days) then PyInt(days.value) else None
  }

  /** `icontains`: a case-insensitive substring test. */
  predicate IContains(field: string, term: string)
  {
    Contains(Lower(field), Lower(term))
  }

  /** The model ordering `['-timestamp', '-created_at']`. */
  function ByTime(x: NewsItem): (k: Key)
  {
    Key(x.timestamp, x.createdAt)
  }

  predicate DaysOk(x: NewsItem, days: Option<string>, now: int)
  {
    DaysWindow(days).Some? ==> x.createdAt >= now - DaysWindow(days).value * DaySeconds
  }

  predicate CategoryOk(x: NewsItem, category: Option<string>)
  {
    Given(category) ==> x.category == category.value
  }

  predicate ImportanceOk(x: NewsItem, importance: Option<string>)
  {
    Given(importance) ==> x.importance == importance.value
  }

  predicate SearchOk(x: NewsItem, search: Option<string>)
  {
    Given(search) ==> IContains(x.title, search.value) || IContains(x.summary, search.value)
                      || IContains(x.content, search.value)
  }

  /** Every filter the request supplied holds of `x`. */
  predicate Matches(x: NewsItem, p: NewsParams, now: int)
  {
    DaysOk(x, p.days, now) && CategoryOk(x, p.category) && ImportanceOk(x, p.importance) && SearchOk(x, p.search)
  }

  /** The `days` filter: items created within the last `days` days, when `days` is an integer. */
  function ByDays(s: seq<NewsItem>, days: Option<string>, now: int): (r: seq<NewsItem>)
    ensures forall x :: x in r <==> x in s && DaysOk(x, days, now)
    ensures multiset(r) <= multiset(s)
  {
    if DaysWindow(days).Some? then
      FilterSubMultiset(s, (x: NewsItem) => DaysOk(x, days, now));
      Filter(s, (x: NewsItem) => DaysOk(x, days, now))
    else s
  }

  /** The exact `category` filter, when given. */
  function ByCategory(s: seq<NewsItem>, category: Option<string>): (r: seq<NewsItem>)
    ensures forall x :: x in r <==> x in s && CategoryOk(x, category)
    ensures multiset(r) <= multiset(s)
  {
    if Given(category) then
      FilterSubMultiset(s, (x: NewsItem) => CategoryOk(x, category));
      Filter(s, (x: NewsItem) => CategoryOk(x, category))
    else s
  }

  /** The exact `importance` filter, when given. */
  function ByImportance(s: seq<NewsItem>, importance: Option<string>): (r: seq<NewsItem>)
    ensures forall x :: x in r <==> x in s && ImportanceOk(x, importance)
    ensures multiset(r) <= multiset(s)
  {
    if Given(importance) then
      FilterSubMultiset(s, (x: NewsItem) => ImportanceOk(x, importance));
      Filter(s, (x: NewsItem) => ImportanceOk(x, importance))
    else s
  }

  /** The `search` filter on title, summary or content, when given. */
  function BySearch(s: seq<NewsItem>, search: Option<string>): (r: seq<NewsItem>)
    ensures forall x :: x in r <==> x in s && SearchOk(x, search)
    ensures multiset(r) <= multiset(s)
  {
    if Given(search) then
      FilterSubMultiset(s, (x: NewsItem) => SearchOk(x, search));
      Filter(s, (x: NewsItem) => SearchOk(x, search))
    else s
  }

  /** The filters, applied in the order the view reassigns `queryset`. */
  function Filtered(items: seq<NewsItem>, p: NewsParams, now: int): (r: seq<NewsItem>)
  {
    BySearch(ByImportance(ByCategory(ByDays(items, p.days, now), p.category), p.importance), p.search)
  }

  /** `get_queryset`: the filtered items, newest first. */
  function NewsQuery(items: seq<NewsItem>, p: NewsParams, now: int): (r: seq<NewsItem>)
  {
    SortDesc(Filtered(items, p, now), ByTime)
  }

  /**
   * The list holds exactly the items satisfying every supplied filter, each
   * at most as often as stored, ordered by timestamp then creation time, both
   * descending.
   */
  lemma NewsQueryFacts(items: seq<NewsItem>, p: NewsParams, now: int)
    ensures var r := NewsQuery(items, p, now);
      && (forall x :: x in r <==> x in items && Matches(x, p, now))
      && multiset(r) <= multiset(items)
      && SortedDesc(r, ByTime)
  {
    var f := Filtered(items, p, now);
    var r := NewsQuery(items, p, now);
    assert multiset(r) == multiset(f);
    forall x ensures x in r <==> x in f {
      assert x in r <==> x in multiset(r);
      assert x in f <==> x in multiset(f);
    }
    SortDescSorted(f, ByTime);
  }

  /** A `days` that is not an integer is ignored, and without filters the list is every item. */
  lemma NewsQueryIgnoresBadDays(items: seq<NewsItem>, p: NewsParams, now: int, d: string)
    requires PyInt(d).None?
    ensures NewsQuery(items, p.(days := Some(d)), now) == NewsQuery(items, p.(days := None), now)
    ensures multiset(NewsQuery(items, NewsParams(None, None, None, None), now)) == multiset(items)
  {
    assert ByDays(items, Some(d), now) == items == ByDays(items, None, now);
    assert Filtered(items, NewsParams(None, None, None, None), now) == items;
  }

  // ---------------------------------------------------------------------------
  // NewsItemViewSet.stats
  // ---------------------------------------------------------------------------

  datatype NewsStats = NewsStats(
    totalNews: nat, todayNews: nat, weekNews: nat, monthNews: nat, lastFetchTime: Option<int>,
    categoryStats: map<string, nat>, importanceStats: map<string, nat>)

  function Categories(items: seq<NewsItem>): (r: seq<string>)
    ensures |r| == |items|
  {
    seq(|items|, i requires 0 <= i < |items| => items[i].category)
  }

  function Importances(items: seq<NewsItem>): (r: seq<string>)
    ensures |r| == |items|
  {
    seq(|items|, i requires 0 <= i < |items| => items[i].importance)
  }

  /** Items created from `since` on. */
  function CreatedSince(items: seq<NewsItem>, since: int): (r: seq<NewsItem>)
  {
    Filter(items, (x: NewsItem) => x.createdAt >= since)
  }

  function CreatedOn(items: seq<NewsItem>, day: int): (r: seq<NewsItem>)
  {
    Filter(items, (x: NewsItem) => Day(x.createdAt) == day)
  }

  /** `stats`: the counts, the creation time of the first item in model order, and the two histograms. */
  function Stats(items: seq<NewsItem>, now: int): (r: NewsStats)
  {
    var ordered := SortDesc(items, ByTime);
    NewsStats(
      |items|, |CreatedOn(items, Day(now))|, |CreatedSince(items, now - 7 * DaySeconds)|,
      |CreatedSince(items, now - 30 * DaySeconds)|,
      if ordered == [] then None else Some(ordered[0].createdAt),
      CountMap(Categories(items)), CountMap(Importances(items)))
  }

  /**
   * Each histogram sums to the total; today's count is within the week's and
   * the week's within the month's; and the last fetch time belongs to an item
   * whose timestamp is the newest.
   */
  lemma StatsFacts(items: seq<NewsItem>, now: int)
    ensures var s := Stats(items, now);
      && Total(s.categoryStats) == s.totalNews == |items|
      && Total(s.importanceStats) == s.totalNews
      && s.todayNews <= s.weekNews <= s.monthNews <= s.totalNews
      && (s.lastFetchTime.None? <==> items == [])
      && (s.lastFetchTime.Some? ==> exists x :: x in items && x.createdAt == s.lastFetchTime.value
                                      && forall y :: y in items ==> x.timestamp >= y.timestamp)
  {
    TotalCountMap(Categories(items));
    TotalCountMap(Importances(items));
    FilterWeaker(items, (x: NewsItem) => Day(x.createdAt) == Day(now), (x: NewsItem) => x.createdAt >= now - 7 * DaySeconds);
    FilterWeaker(items, (x: NewsItem) => x.createdAt >= now - 7 * DaySeconds, (x: NewsItem) => x.createdAt >= now - 30 * DaySeconds);
    var ordered := SortDesc(items, ByTime);
    if ordered != [] {
      SortDescSorted(items, ByTime);
      var x := ordered[0];
      assert x in multiset(ordered);
      forall y | y in items ensures x.timestamp >= y.timestamp {
        assert y in multiset(items);
        var k :| 0 <= k < |ordered| && ordered[k] == y;
        if k > 0 {
          assert AtLeast(ByTime(ordered[0]), ByTime(ordered[k]));
        }
      }
    }
  }

  // ---------------------------------------------------------------------------
  // FetchHistoryViewSet.get_queryset
  // ---------------------------------------------------------------------------

  /** The history window: 30 days when `days` is absent, none when it is not an integer. */
  function HistoryWindow(days: Option<string>): (r: Option<int>)
  {
    if days.None? then Some(30) else PyInt(days.value)
  }

  function ByFetchDate(x: FetchRecord): (k: Key)
  {
    Key(x.fetchDate, x.createdAt)
  }

  predicate InWindow(x: FetchRecord, days: Option<string>, today: int)
  {
    HistoryWindow(days).Some? ==> x.fetchDate >= today - HistoryWindow(days).value
  }

  /** The `fetch_date__gte` filter, when the window is an integer. */
  function InHistoryWindow(h: seq<FetchRecord>, days: Option<string>, today: int): (r: seq<FetchRecord>)
    ensures forall x :: x in r <==> x in h && InWindow(x, days, today)
  {
    if HistoryWindow(days).Some? then Filter(h, (x: FetchRecord) => InWindow(x, days, today)) else h
  }

  /** The history list: rows from `today - days` on, newest day first. */
  function HistoryQuery(h: seq<FetchRecord>, days: Option<string>, today: int): (r: seq<FetchRecord>)
  {
    SortDesc(InHistoryWindow(h, days, today), ByFetchDate)
  }

  /**
   * The list holds exactly the rows inside the window (the last 30 days by
   * default, everything for an invalid `days`), ordered by date then
   * creation time, both descending.
   */
  lemma HistoryQueryFacts(h: seq<FetchRecord>, days: Option<string>, today: int)
    ensures var r := HistoryQuery(h, days, today);
      && (forall x :: x in r <==> x in h && InWindow(x, days, today))
      && (days.None? ==> forall x :: x in r <==> x in h && x.fetchDate >= today - 30)
      && (days.Some? && PyInt(days.value).None? ==> multiset(r) == multiset(h))
      && SortedDesc(r, ByFetchDate)
  {
    var f := InHistoryWindow(h, days, today);
    var r := HistoryQuery(h, days, today);
    forall x ensures x in r <==> x in f {
      assert x in r <==> x in multiset(r);
      assert x in f <==> x in multiset(f);
    }
    SortDescSorted(f, ByFetchDate);
  }

  // ---------------------------------------------------------------------------
  // NewsServiceViewSet.fetch_news
  // ---------------------------------------------------------------------------

  /** The response of `fetch_news`. */
  datatype FetchReply =
    | Started(maxNewsCount: int)
    | Busy(error: string)
    | StartFailed(error: string)
    | InvalidCount

  function StatusCode(r: FetchReply): (code: int)
  {
    match r
    case Started(_) => 200
    case Busy(_) => 409
    case StartFailed(_) => 500
    case InvalidCount => 400
  }

  /** `FetchNewsRequestSerializer.max_news_count`: 5 by default, otherwise within [1, 20]. */
  function MaxNewsCount(requested: Option<int>): (r: Option<int>)
    ensures r.Some? ==> 1 <= r.value <= 20
    ensures requested.None? ==> r == Some(5)
    ensures requested.Some? ==> (r.Some? <==> 1 <= requested.value <= 20) && (r.Some? ==> r.value == requested.value)
  {
    if requested.None? then Some(5) else if 1 <= requested.value <= 20 then Some(requested.value) else None
  }

  /**
   * `fetch_news`: an invalid count gives 400, a running job 409; otherwise
   * the job is started (here: run) and its count echoed. `force_refresh` is
   * accepted and ignored, the daily limit being disabled.
   */
  method FetchNews(svc: NewsService, db: NewsDb, forceRefresh: bool, requested: Option<int>,
                   topicsReply: Option<seq<string>>, analyses: nat -> Analysis, saved: nat -> bool, today: int, now: int)
    returns (reply: FetchReply)
    requires db.Valid()
    modifies svc, db
    ensures db.Valid()
    ensures reply.InvalidCount? <==> MaxNewsCount(requested).None?
    ensures reply.Busy? <==> MaxNewsCount(requested).Some? && old(svc.isFetching)
    ensures reply.Busy? ==> reply.error == BusyError
    ensures reply.InvalidCount? || reply.Busy? ==> unchanged(svc) && unchanged(db)
    ensures !reply.StartFailed?
    ensures reply.Started? ==>
      var topics := GenerateNewsTopics(reply.maxNewsCount, topicsReply);
      && Some(reply.maxNewsCount) == MaxNewsCount(requested)
      && svc.Finished(db, old(db.items), old(db.history), topics, analyses, saved, today, now)
      && svc.progressLog == old(svc.progressLog) + ProgressRun(|topics|)
  {
    var count := MaxNewsCount(requested);
    if count.None? {
      return InvalidCount;
    }
    if svc.isFetching {
      return Busy(BusyError);
    }
    var error := svc.StartFetchTask(db, count.value, topicsReply, analyses, saved, today, now);
    match error
    case Some(e) => reply := StartFailed("启动获取任务失败: " + e);
    case None => reply := Started(count.value);
  }
}
