/**
 * The analytics page (frontend/src/components/NewsAnalytics.tsx): from one
 * page of news it tallies the category, importance, source, day and hour
 * histograms, lists every day of the chosen range with its count, picks the
 * six busiest hours, compares the last three days with the three before, and
 * draws the ten largest entries of the chosen distribution.
 *
 * Times are local wall-clock seconds, and a day is the day number of a time;
 * the page keys its day table by the `YYYY-MM-DD` text of the day, which is
 * one text per day, so keying by the day number gives the same table.
 */
module NewsAnalytics {
  import opened Wrappers
  import Counting
  import Sorting

  /** The fields of a news item the page reads. */
  datatype NewsItem = NewsItem(category: string, importance: string, source: string, timestamp: int)

  const SecondsPerDay: int := 86400
  const HoursPerDay: nat := 24

  /** The day number of a time. */
  function DayOf(t: int): int
  {
    t / SecondsPerDay
  }

  /** `dayjs(t).hour()`. */
  function HourOf(t: int): (h: nat)
    ensures h < HoursPerDay
  {
    (t % SecondsPerDay) / 3600
  }

  /** A field of every item, in order. */
  function Field<K>(news: seq<NewsItem>, f: NewsItem -> K): (r: seq<K>)
    ensures |r| == |news|
  {
    if news == [] then [] else Field(news[..|news| - 1], f) + [f(news[|news| - 1])]
  }

  /** The field of the `i`th item. */
  lemma {:induction false} FieldAt<K>(news: seq<NewsItem>, f: NewsItem -> K, i: nat)
    requires i < |news|
    ensures Field(news, f)[i] == f(news[i])
  {
    var n := |news| - 1;
    if i < n {
      FieldAt(news[..n], f, i);
    }
  }

  lemma FieldSnoc<K>(news: seq<NewsItem>, i: nat, f: NewsItem -> K)
    requires i < |news|
    ensures Field(news[..i + 1], f) == Field(news[..i], f) + [f(news[i])]
  {
    assert news[..i + 1][..i] == news[..i];
  }

  // ---------------------------------------------------------------------------
  // Histograms
  // ---------------------------------------------------------------------------

  /** The five tables `news.forEach` fills. */
  datatype Tables = Tables(
    category: map<string, nat>, importance: map<string, nat>, source: map<string, nat>, daily: map<int, nat>, hourly: map<nat, nat>)

  function Category(n: NewsItem): string { n.category }
  function Importance(n: NewsItem): string { n.importance }
  function Source(n: NewsItem): string { n.source }
  function Day(n: NewsItem): int { DayOf(n.timestamp) }
  function Hour(n: NewsItem): nat { HourOf(n.timestamp) }

  /** The body of the `forEach`: one item counted in each table. */
  function Add(t: Tables, n: NewsItem): Tables
  {
    Tables(t.category[n.category := Counting.Get(t.category, n.category) + 1],
           t.importance[n.importance := Counting.Get(t.importance, n.importance) + 1],
           t.source[n.source := Counting.Get(t.source, n.source) + 1],
           t.daily[Day(n) := Counting.Get(t.daily, Day(n)) + 1],
           t.hourly[Hour(n) := Counting.Get(t.hourly, Hour(n)) + 1])
  }

  /** Each table counts its field over the items. */
  function Tally(news: seq<NewsItem>): Tables
  {
    Tables(Counting.CountMap(Field(news, Category)), Counting.CountMap(Field(news, Importance)),
           Counting.CountMap(Field(news, Source)), Counting.CountMap(Field(news, Day)), Counting.CountMap(Field(news, Hour)))
  }

  /** Counting one more item adds one to the entry of its value. */
  lemma CountFieldSnoc<K(!new)>(news: seq<NewsItem>, i: nat, f: NewsItem -> K)
    requires i < |news|
    ensures var m := Counting.CountMap(Field(news[..i], f));
      Counting.CountMap(Field(news[..i + 1], f)) == m[f(news[i]) := Counting.Get(m, f(news[i])) + 1]
  {
    FieldSnoc(news, i, f);
    Counting.CountMapSnoc(Field(news[..i], f), f(news[i]));
  }

  /** The tables of one more item are the tables so far with that item added. */
  lemma TallySnoc(news: seq<NewsItem>, i: nat)
    requires i < |news|
    ensures Tally(news[..i + 1]) == Add(Tally(news[..i]), news[i])
  {
    SnocCategory(news, i);
    SnocImportance(news, i);
    SnocSource(news, i);
    SnocDay(news, i);
    SnocHour(news, i);
  }

  lemma SnocCategory(news: seq<NewsItem>, i: nat)
    requires i < |news|
    ensures Tally(news[..i + 1]).category == Add(Tally(news[..i]), news[i]).category
  {
    var m, k := Counting.CountMap(Field(news[..i], Category)), Category(news[i]);
    CountFieldSnoc(news, i, Category);
    assert Tally(news[..i]).category == m;
    assert Add(Tally(news[..i]), news[i]).category == m[k := Counting.Get(m, k) + 1];
  }

  lemma SnocImportance(news: seq<NewsItem>, i: nat)
    requires i < |news|
    ensures Tally(news[..i + 1]).importance == Add(Tally(news[..i]), news[i]).importance
  {
    var m, k := Counting.CountMap(Field(news[..i], Importance)), Importance(news[i]);
    CountFieldSnoc(news, i, Importance);
    assert Tally(news[..i]).importance == m;
    assert Add(Tally(news[..i]), news[i]).importance == m[k := Counting.Get(m, k) + 1];
  }

  lemma SnocSource(news: seq<NewsItem>, i: nat)
    requires i < |news|
    ensures Tally(news[..i + 1]).source == Add(Tally(news[..i]), news[i]).source
  {
    var m, k := Counting.CountMap(Field(news[..i], Source)), Source(news[i]);
    CountFieldSnoc(news, i, Source);
    assert Tally(news[..i]).source == m;
    assert Add(Tally(news[..i]), news[i]).source == m[k := Counting.Get(m, k) + 1];
  }

  lemma SnocDay(news: seq<NewsItem>, i: nat)
    requires i < |news|
    ensures Tally(news[..i + 1]).daily == Add(Tally(news[..i]), news[i]).daily
  {
    var m, k := Counting.CountMap(Field(news[..i], Day)), Day(news[i]);
    CountFieldSnoc(news, i, Day);
    assert Tally(news[..i]).daily == m;
    assert Add(Tally(news[..i]), news[i]).daily == m[k := Counting.Get(m, k) + 1];
  }

  lemma SnocHour(news: seq<NewsItem>, i: nat)
    requires i < |news|
    ensures Tally(news[..i + 1]).hourly == Add(Tally(news[..i]), news[i]).hourly
  {
    var m, k := Counting.CountMap(Field(news[..i], Hour)), Hour(news[i]);
    CountFieldSnoc(news, i, Hour);
    assert Tally(news[..i]).hourly == m;
    assert Add(Tally(news[..i]), news[i]).hourly == m[k := Counting.Get(m, k) + 1];
  }

  /** The `forEach` over the items, one increment per table per item. */
  method TallyNews(news: seq<NewsItem>) returns (t: Tables)
    ensures t == Tally(news)
  {
    t := Tables(map[], map[], map[], map[], map[]);
    var i := 0;
    assert Field(news[..i], Category) == [] && Field(news[..i], Importance) == [] && Field(news[..i], Source) == [];
    assert Field(news[..i], Day) == [] && Field(news[..i], Hour) == [];
    while i < |news|
      invariant 0 <= i <= |news|
      invariant t == Tally(news[..i])
    {
      TallySnoc(news, i);
      t := Add(t, news[i]);
      i := i + 1;
    }
    assert news[..i] == news;
  }

  /**
   * Every item is counted once in each table: each table's counts add up to
   * the number of items, which the page reports as `total_news`, and a key's
   * count is the number of items with that value.
   */
  lemma TablesSumToTotal(news: seq<NewsItem>)
    ensures var t := Tally(news);
      && Counting.Total(t.category) == |news| && Counting.Total(t.importance) == |news|
      && Counting.Total(t.source) == |news| && Counting.Total(t.daily) == |news| && Counting.Total(t.hourly) == |news|
    ensures forall c :: c in Tally(news).category ==> Tally(news).category[c] == multiset(Field(news, Category))[c]
  {
    Counting.TotalCountMap(Field(news, Category));
    Counting.TotalCountMap(Field(news, Importance));
    Counting.TotalCountMap(Field(news, Source));
    Counting.TotalCountMap(Field(news, Day));
    Counting.TotalCountMap(Field(news, Hour));
    Counting.CountMapCounts(Field(news, Category));
  }

  // ---------------------------------------------------------------------------
  // The days of the range
  // ---------------------------------------------------------------------------

  /** A day of the trend and its count. */
  datatype DayCount = DayCount(day: int, count: nat)

  /** How many times the loop runs: once per whole day from `start` while not past `end`. */
  function TrendLength(start: int, end: int): nat
  {
    if start > end then 0 else (end - start) / SecondsPerDay + 1
  }

  /** The trend the loop builds: the consecutive days from the start's, each with its count or 0. */
  function Trend(start: int, end: int, daily: map<int, nat>): (r: seq<DayCount>)
    ensures |r| == TrendLength(start, end)
  {
    seq(TrendLength(start, end), i => DayCount(DayOf(start) + i, Counting.Get(daily, DayOf(start) + i)))
  }

  /** `dateRange[1].diff(dateRange[0], 'days') + 1`: whole days between the two times (truncated toward zero), plus one. */
  function RequestedDays(start: int, end: int): int
  {
    (if end >= start then (end - start) / SecondsPerDay else -((start - end) / SecondsPerDay)) + 1
  }

  lemma StepDay(t: int, k: nat)
    ensures DayOf(t + k * SecondsPerDay) == DayOf(t) + k
  {
  }

  lemma InRange(start: int, end: int, k: nat)
    ensures start + k * SecondsPerDay <= end <==> k < TrendLength(start, end)
  {
    if start <= end {
      var q, r := (end - start) / SecondsPerDay, (end - start) % SecondsPerDay;
      assert end - start == q * SecondsPerDay + r;
      if k <= q {
        assert k * SecondsPerDay <= q * SecondsPerDay;
      } else {
        assert k * SecondsPerDay >= (q + 1) * SecondsPerDay;
      }
    }
  }

  /** The `while` from the range's start: one entry per day until past the end. */
  method DailyTrend(start: int, end: int, daily: map<int, nat>) returns (trend: seq<DayCount>)
    ensures trend == Trend(start, end, daily)
  {
    trend := [];
    var current := start;
    while current <= end
      invariant current == start + |trend| * SecondsPerDay
      invariant |trend| <= TrendLength(start, end)
      invariant forall i :: 0 <= i < |trend| ==> trend[i] == Trend(start, end, daily)[i]
      decreases end - current
    {
      InRange(start, end, |trend|);
      StepDay(start, |trend|);
      var day := DayOf(current);
      trend := trend + [DayCount(day, Counting.Get(daily, day))];
      current := current + SecondsPerDay;
    }
    InRange(start, end, |trend|);
  }

  /**
   * The trend has as many days as the page asks the server for, and it runs
   * from the start's day to the end's day exactly when the start's time of
   * day is not later than the end's; otherwise it stops a day short.
   */
  lemma TrendSpan(start: int, end: int, daily: map<int, nat>)
    requires start <= end
    ensures var r := Trend(start, end, daily);
      && |r| == RequestedDays(start, end)
      && r[0].day == DayOf(start)
      && (start % SecondsPerDay <= end % SecondsPerDay ==> r[|r| - 1].day == DayOf(end))
      && (start % SecondsPerDay > end % SecondsPerDay ==> r[|r| - 1].day == DayOf(end) - 1)
  {
    var a, rs := start / SecondsPerDay, start % SecondsPerDay;
    var b, re := end / SecondsPerDay, end % SecondsPerDay;
    var q, rq := (end - start) / SecondsPerDay, (end - start) % SecondsPerDay;
    assert end - start == (b - a) * SecondsPerDay + (re - rs);
    assert (b - a - q) * SecondsPerDay == rq - (re - rs);
    if rs <= re {
      assert q == b - a;
    } else {
      assert q == b - a - 1;
    }
  }

  // ---------------------------------------------------------------------------
  // Bars: entries sorted by count, cut to the top
  // ---------------------------------------------------------------------------

  /** An entry of a table: its key and its count. */
  datatype Bar<K> = Bar(key: K, count: nat)

  function ByCount<K>(b: Bar<K>): Sorting.Key
  {
    Sorting.Key(b.count, 0)
  }

  /** `.sort((a, b) => b.count - a.count).slice(0, n)`: JavaScript's sort is stable, as the insertion sort is. */
  function Top<K>(bars: seq<Bar<K>>, n: nat): (r: seq<Bar<K>>)
    ensures |r| == Min(n, |bars|)
  {
    Take(Sorting.SortDesc(bars, ByCount), n)
  }

  /**
   * The top entries are sorted by count, come from the entries, and no entry
   * left out has a larger count than any entry kept.
   */
  lemma TopFacts<K>(bars: seq<Bar<K>>, n: nat)
    ensures Sorting.SortedDesc(Top(bars, n), ByCount)
    ensures forall b :: b in Top(bars, n) ==> b in bars
    ensures forall b, c :: b in bars && b !in Top(bars, n) && c in Top(bars, n) ==> c.count >= b.count
  {
    var r := Sorting.SortDesc(bars, ByCount);
    Sorting.SortDescSorted(bars, ByCount);
    var t := Top(bars, n);
    assert t == r[..|t|];
    Sorting.SortedPrefix(r, |t|, ByCount);
    forall b | b in t ensures b in bars {
      assert b in multiset(r);
    }
    forall b, c | b in bars && b !in t && c in t ensures c.count >= b.count {
      assert b in multiset(r);
      var j :| 0 <= j < |r| && r[j] == b;
      var i :| 0 <= i < |t| && t[i] == c;
      assert j >= |t| by {
        assert forall k :: 0 <= k < |t| ==> r[k] == t[k];
      }
      assert Sorting.AtLeast(ByCount(r[i]), ByCount(r[j]));
    }
  }

  /** The hours below `n` that occur, in ascending order, as `Object.entries` lists integer keys. */
  function HourBars(hourly: map<nat, nat>, n: nat): seq<Bar<nat>>
  {
    if n == 0 then [] else HourBars(hourly, n - 1) + (if n - 1 in hourly then [Bar(n - 1, hourly[n - 1])] else [])
  }

  /** Each hour below `n` that occurs has one entry, with its count, and the entries go by ascending hour. */
  lemma {:induction false} HourBarsFacts(hourly: map<nat, nat>, n: nat)
    ensures var r := HourBars(hourly, n); forall b :: b in r <==> b.key < n && b.key in hourly && b.count == hourly[b.key]
    ensures var r := HourBars(hourly, n); forall i, j :: 0 <= i < j < |r| ==> r[i].key < r[j].key
  {
    if n > 0 {
      HourBarsFacts(hourly, n - 1);
    }
  }

  /** `peak_hours`: the six hours with the most items, most first; ties keep the earlier hour first. */
  function PeakHours(hourly: map<nat, nat>): (r: seq<Bar<nat>>)
    ensures |r| <= 6
  {
    Top(HourBars(hourly, HoursPerDay), 6)
  }

  /**
   * At most six hours, sorted by count; each with its true count; and an hour
   * that occurs but is not listed has no more items than any listed one.
   */
  lemma PeakHoursFacts(news: seq<NewsItem>)
    ensures var hourly := Tally(news).hourly; var r := PeakHours(hourly);
      && |r| <= 6 && Sorting.SortedDesc(r, ByCount)
      && (forall b :: b in r ==> b.key in hourly && b.count == hourly[b.key])
      && (forall h, c :: h in hourly && Bar(h, hourly[h]) !in r && c in r ==> c.count >= hourly[h])
  {
    var hourly := Tally(news).hourly;
    Counting.CountMapCounts(Field(news, Hour));
    HourBarsFacts(hourly, HoursPerDay);
    TopFacts(HourBars(hourly, HoursPerDay), 6);
    forall h | h in hourly ensures h < HoursPerDay {
      var i :| 0 <= i < |news| && Field(news, Hour)[i] == h;
      FieldAt(news, Hour, i);
    }
  }

  /** The distinct values, in the order of their first occurrence (the order `Object.entries` lists text keys). */
  function Distinct(keys: seq<string>): (r: seq<string>)
    ensures forall k :: k in r <==> k in keys
    ensures forall i, j :: 0 <= i < j < |r| ==> r[i] != r[j]
  {
    if keys == [] then []
    else
      var d := Distinct(keys[..|keys| - 1]);
      var k := keys[|keys| - 1];
      assert forall x :: x in keys <==> x in keys[..|keys| - 1] || x == k;
      if k in d then d else d + [k]
  }

  /** The entries of a table, in the order given. */
  function Bars(ks: seq<string>, table: map<string, nat>): (r: seq<Bar<string>>)
    requires forall k :: k in ks ==> k in table
    ensures |r| == |ks|
    ensures forall i :: 0 <= i < |ks| ==> r[i] == Bar(ks[i], table[ks[i]])
  {
    if ks == [] then [] else Bars(ks[..|ks| - 1], table) + [Bar(ks[|ks| - 1], table[ks[|ks| - 1]])]
  }

  /** The distribution chart of a field's values: the ten largest entries. */
  function Chart(values: seq<string>): (r: seq<Bar<string>>)
    ensures |r| <= 10
  {
    Counting.CountMapCounts(values);
    Top(Bars(Distinct(values), Counting.CountMap(values)), 10)
  }

  predicate NoDuplicates<T(==)>(s: seq<T>)
  {
    forall i, j :: 0 <= i < j < |s| ==> s[i] != s[j]
  }

  /** A sequence has no duplicates exactly when each value occurs at most once in its multiset. */
  lemma {:induction false} NoDuplicatesCount<T>(s: seq<T>)
    ensures NoDuplicates(s) <==> forall x :: multiset(s)[x] <= 1
  {
    if s != [] {
      var init, last := s[..|s| - 1], s[|s| - 1];
      NoDuplicatesCount(init);
      assert s == init + [last];
      if NoDuplicates(s) {
        assert NoDuplicates(init) by {
          forall i, j | 0 <= i < j < |init| ensures init[i] != init[j] {
            assert init[i] == s[i] && init[j] == s[j];
          }
        }
        assert last !in init by {
          forall i | 0 <= i < |init| ensures init[i] != last {
            assert init[i] == s[i];
          }
        }
      } else {
        var i, j :| 0 <= i < j < |s| && s[i] == s[j];
        if j < |s| - 1 {
          assert init[i] == init[j];
          var x :| multiset(init)[x] > 1;
          assert multiset(s)[x] >= multiset(init)[x];
        } else {
          assert init[i] == last;
          assert multiset(init)[last] >= 1;
          assert multiset(s)[last] == multiset(init)[last] + 1;
        }
      }
    }
  }

  /**
   * The chart shows at most ten values, sorted by count, each with the number
   * of items having it, no value twice; a value not shown has no more items
   * than any value shown.
   */
  lemma ChartFacts(values: seq<string>)
    ensures var r := Chart(values);
      && |r| <= 10 && Sorting.SortedDesc(r, ByCount)
      && (forall b :: b in r ==> b.key in values && b.count == multiset(values)[b.key])
      && (forall i, j :: 0 <= i < j < |r| ==> r[i].key != r[j].key)
      && (forall v, c :: v in values && c in r && (forall b :: b in r ==> b.key != v) ==> c.count >= multiset(values)[v])
  {
    Counting.CountMapCounts(values);
    TopFacts(Bars(Distinct(values), Counting.CountMap(values)), 10);
    ChartCounts(values);
    ChartKeysDistinct(values);
    ChartLeftOut(values);
  }

  /** Each value the chart shows occurs among the values, with the number of its occurrences. */
  lemma ChartCounts(values: seq<string>)
    ensures forall b :: b in Chart(values) ==> b.key in values && b.count == multiset(values)[b.key]
  {
    Counting.CountMapCounts(values);
    var m := Counting.CountMap(values);
    var bars := Bars(Distinct(values), m);
    TopFacts(bars, 10);
    forall b | b in Chart(values) ensures b.key in values && b.count == multiset(values)[b.key] {
      assert b in bars;
      var i :| 0 <= i < |bars| && bars[i] == b;
    }
  }

  /** A value the chart leaves out has no more occurrences than any value it shows. */
  lemma ChartLeftOut(values: seq<string>)
    ensures var r := Chart(values);
      forall v, c :: v in values && c in r && (forall b :: b in r ==> b.key != v) ==> c.count >= multiset(values)[v]
  {
    Counting.CountMapCounts(values);
    var m := Counting.CountMap(values);
    var ks := Distinct(values);
    var bars := Bars(ks, m);
    TopFacts(bars, 10);
    var r := Chart(values);
    forall v, c | v in values && c in r && (forall b :: b in r ==> b.key != v) ensures c.count >= multiset(values)[v] {
      var i :| 0 <= i < |ks| && ks[i] == v;
      assert bars[i] == Bar(v, m[v]);
    }
  }

  /** The chart's entries have distinct values: sorting and cutting the entries of distinct values keeps them distinct. */
  lemma ChartKeysDistinct(values: seq<string>)
    ensures var r := Chart(values); forall i, j :: 0 <= i < j < |r| ==> r[i].key != r[j].key
  {
    Counting.CountMapCounts(values);
    var m := Counting.CountMap(values);
    var ks := Distinct(values);
    var bars := Bars(ks, m);
    var sorted := Sorting.SortDesc(bars, ByCount);
    var r := Chart(values);
    assert NoDuplicates(bars) by {
      forall i, j | 0 <= i < j < |bars| ensures bars[i] != bars[j] {
        assert bars[i].key == ks[i] && bars[j].key == ks[j];
      }
    }
    NoDuplicatesCount(bars);
    NoDuplicatesCount(sorted);
    assert r == sorted[..|r|];
    forall i, j | 0 <= i < j < |r| ensures r[i].key != r[j].key {
      assert r[i] == sorted[i] && r[j] == sorted[j];
      assert r[i] in multiset(bars) && r[j] in multiset(bars);
      var a :| 0 <= a < |bars| && bars[a] == r[i];
      var b :| 0 <= b < |bars| && bars[b] == r[j];
      assert r[i].count == m[r[i].key] && r[j].count == m[r[j].key];
    }
  }

  // ---------------------------------------------------------------------------
  // Growth
  // ---------------------------------------------------------------------------

  function SumCounts(days: seq<DayCount>): nat
  {
    if days == [] then 0 else SumCounts(days[..|days| - 1]) + days[|days| - 1].count
  }

  /** JavaScript's `slice(-k)` start: `max(n - k, 0)`. */
  function FromEnd(n: nat, k: nat): (i: nat)
    ensures i <= n
  {
    if n >= k then n - k else 0
  }

  /** The items of the last three days of the trend, and of the three days before them. */
  function Windows(trend: seq<DayCount>): (r: (nat, nat))
  {
    var n := |trend|;
    (SumCounts(trend[FromEnd(n, 3)..]), SumCounts(trend[FromEnd(n, 6)..FromEnd(n, 3)]))
  }

  datatype Direction = Rising | Falling | Steady

  /**
   * The trend indicator: the growth rate `(recent - previous) / previous * 100`
   * (0 when there was nothing before) above 5 is rising, below -5 falling,
   * else steady; compared exactly, by cross-multiplying.
   */
  function Indicator(trend: seq<DayCount>): (d: Direction)
    ensures Windows(trend).1 == 0 ==> d == Steady
  {
    var (recent, previous) := Windows(trend);
    if previous > 0 && (recent - previous) * 100 > 5 * previous then Rising
    else if previous > 0 && (recent - previous) * 100 < -5 * previous then Falling
    else Steady
  }

  /** Rising means more items in the last three days than in the three before, falling fewer; equal windows are steady. */
  lemma IndicatorFacts(trend: seq<DayCount>)
    ensures Indicator(trend) == Rising ==> Windows(trend).0 > Windows(trend).1
    ensures Indicator(trend) == Falling ==> Windows(trend).0 < Windows(trend).1
    ensures Windows(trend).0 == Windows(trend).1 ==> Indicator(trend) == Steady
  {
  }

  /** With under four days in the range there is no earlier window, so the page always says steady. */
  lemma ShortRangeSteady(trend: seq<DayCount>)
    requires |trend| <= 3
    ensures Indicator(trend) == Steady
  {
    assert trend[FromEnd(|trend|, 6)..FromEnd(|trend|, 3)] == [];
  }

  // ---------------------------------------------------------------------------
  // The page
  // ---------------------------------------------------------------------------

  datatype Analytics = Analytics(
    totalNews: nat, dailyTrend: seq<DayCount>, tables: Tables, direction: Direction, peakHours: seq<Bar<nat>>)

  /** What the page computes from one page of items and the range. */
  function Analyze(news: seq<NewsItem>, start: int, end: int): Analytics
  {
    var t := Tally(news);
    var trend := Trend(start, end, t.daily);
    Analytics(|news|, trend, t, Indicator(trend), PeakHours(t.hourly))
  }

  /** The body of `loadAnalytics` once the items are in: the tally, then the loop over the days. */
  method ComputeAnalytics(news: seq<NewsItem>, start: int, end: int) returns (a: Analytics)
    ensures a == Analyze(news, start, end)
  {
    var t := TallyNews(news);
    var trend := DailyTrend(start, end, t.daily);
    a := Analytics(|news|, trend, t, Indicator(trend), PeakHours(t.hourly));
  }

  /** `response.results || []`. */
  function Received(results: Option<seq<NewsItem>>): seq<NewsItem>
  {
    if results.Some? then results.value else []
  }

  class AnalyticsPage {
    var start: int
    var end: int
    var analytics: Option<Analytics>
    var loading: bool
    /** The `days` of each request sent, with its `page_size`. */
    var requests: seq<(nat, int)>
    var errors: nat

    constructor (now: int)
      ensures start == now - 7 * SecondsPerDay && end == now && analytics.None? && loading && requests == [] && errors == 0
    {
      start, end, analytics, loading, requests, errors := now - 7 * SecondsPerDay, now, None, true, [], 0;
    }

    /**
     * `loadAnalytics`: asks for one page of 100 items over the range's days;
     * `results` is what came back (None when the call failed, an empty list
     * when the reply has no results).
     */
    method LoadAnalytics(results: Option<Option<seq<NewsItem>>>)
      modifies this
      ensures !loading && start == old(start) && end == old(end)
      ensures requests == old(requests) + [(100, RequestedDays(start, end))]
      ensures errors == old(errors) + (if results.None? then 1 else 0)
      ensures results.None? ==> analytics == old(analytics)
      ensures results.Some? ==> analytics == Some(Analyze(Received(results.value), start, end))
    {
      var days := RequestedDays(start, end);
      requests := requests + [(100, days)];
      var s, e := start, end;
      if results.None? {
        errors := errors + 1;
      } else {
        var a := ComputeAnalytics(Received(results.value), s, e);
        analytics := Some(a);
      }
      loading := false;
    }
  }
}
