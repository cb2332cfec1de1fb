/**
 * The backend's news fetch service (backend/news/services.py): the shared
 * fetch-status record, the job that turns generated topics into saved news
 * items, and the per-day fetch history.
 *
 * The job runs in a daemon thread in the source; here its body runs to
 * completion inside the call that starts it. The language model is an oracle:
 * `topicsReply` is the parsed topic list (None when the call or the parse
 * failed) and `analyses(i)` is what the analysis of topic `i` returned.
 */
module NewsServices {
  import opened Wrappers
  import opened Text

  /** `NewsData`: one analysed topic, before it is saved. */
  datatype NewsData = NewsData(
    title: string, source: string, content: string, summary: string,
    category: string, importance: string, keyPoints: seq<string>, url: Option<string>)

  /** A `NewsItem` row; times are seconds. */
  datatype NewsItem = NewsItem(
    id: nat, title: string, source: string, content: string, summary: string, url: Option<string>,
    category: string, importance: string, keyPoints: seq<string>, timestamp: int, createdAt: int)

  /** A `FetchHistory` row; `fetchDate` is a day number. */
  datatype FetchRecord = FetchRecord(fetchDate: int, newsCount: nat, status: string, logMessage: string, createdAt: int)

  // ---------------------------------------------------------------------------
  // Topics and analysis
  // ---------------------------------------------------------------------------

  /** Python's `s[:count]` for any integer `count`. */
  function PyPrefix<T>(s: seq<T>, count: int): (r: seq<T>)
    ensures |r| <= |s| && r == s[..|r|]
    ensures 0 <= count ==> |r| == Min(count, |s|)
  {
    if count >= 0 then Take(s, count) else if |s| + count > 0 then s[..|s| + count] else []
  }

  const DefaultTopics: seq<string> := ["大语言模型最新进展", "AI芯片技术突破", "自动驾驶技术更新", "AI在医疗领域应用", "AI监管政策动态"]

  /**
   * `AIClient.generate_news_topics`: the first `count` topics of the reply, or
   * of the five default topics when the call or the parse failed.
   */
  function GenerateNewsTopics(count: int, topicsReply: Option<seq<string>>): (r: seq<string>)
    ensures topicsReply.Some? ==> |r| <= |topicsReply.value| && r == topicsReply.value[..|r|]
    ensures topicsReply.None? ==> |r| <= |DefaultTopics| && r == DefaultTopics[..|r|]
    ensures 0 <= count ==> |r| == Min(count, if topicsReply.Some? then |topicsReply.value| else |DefaultTopics|)
  {
    match topicsReply
    case Some(topics) => PyPrefix(topics, count)
    case None => PyPrefix(DefaultTopics, count)
  }

  /** On every path, including the fallback, at most `count` topics come back. */
  lemma GenerateNewsTopicsBound(count: nat, topicsReply: Option<seq<string>>)
    ensures |GenerateNewsTopics(count, topicsReply)| <= count
    ensures topicsReply.None? ==> |GenerateNewsTopics(count, topicsReply)| == Min(count, 5)
  {
  }

  /** The fixed text after the second mention of the topic in the mock content. */
  const MockTail: string := "领域出现了重要进展。业内专家表示，这一发展将对AI行业产生深远影响。\n        \n        主要亮点包括：\n        1. 技术创新突破了传统限制\n        2. 应用场景得到进一步拓展  \n        3. 产业化进程明显加速\n        4. 相关标准和规范正在完善\n        \n        多家知名科技公司已经开始布局相关技术，预计未来6个月内将有更多产品和服务推出。\n        \n        行业分析师认为，这一趋势将推动整个AI生态系统的发展，为用户带来更好的体验。\n        \n        该技术的应用前景广阔，预计将在教育、医疗、金融、制造等多个领域产生重要影响。\n        相关企业和研究机构正在加大投入，推动技术的进一步发展和商业化应用。\n        "

  /** `NewsContentGenerator.generate_mock_content`. */
  function MockContent(topic: string): (r: string)
  {
    "\n        关于\"" + topic + "\"的最新资讯：\n        \n        据最新报道，" + topic + MockTail
  }

  /**
   * What `analyze_news_content` handed back: a parsed JSON object whose keys
   * may be missing, a parsed JSON value that is not an object, or a failure
   * (the call raised or nothing parsed), which the source answers with its
   * default analysis.
   */
  datatype Analysis =
    | Parsed(title: Option<string>, source: Option<string>, summary: Option<string>,
             category: Option<string>, importance: Option<string>, keyPoints: Option<seq<string>>)
    | NotAnObject
    | Failed

  function Or<T>(o: Option<T>, default: T): (r: T)
  {
    if o.Some? then o.value else default
  }

  const DefaultSource: string := "AI科技资讯网"

  function DefaultTitle(topic: string): (r: string)
  {
    "关于" + topic + "的最新资讯"
  }

  /** The analysis `analyze_news_content` falls back to. */
  function DefaultAnalysis(topic: string): (r: Analysis)
  {
    Parsed(Some(DefaultTitle(topic)), Some(DefaultSource), Some("关于" + topic + "的重要进展和最新动态。"),
           Some("other"), Some("medium"), Some(["技术创新", "应用拓展", "产业发展"]))
  }

  /**
   * The `NewsData` built for topic `i` from its analysis, or None when the
   * analysis is not an object (its `.get` raises and the topic is skipped).
   */
  function NewsDataFor(topic: string, i: nat, analysis: Analysis): (r: Option<NewsData>)
  {
    var a := if analysis.Failed? then DefaultAnalysis(topic) else analysis;
    if a.NotAnObject? then None
    else Some(NewsData(
      Or(a.title, DefaultTitle(topic)), Or(a.source, DefaultSource), MockContent(topic), Or(a.summary, ""),
      Or(a.category, "other"), Or(a.importance, "medium"), Or(a.keyPoints, []),
      Some("https://example.com/news/" + NatToString(i + 1))))
  }

  /**
   * A topic is dropped only when its analysis is not an object; otherwise it
   * keeps the mock content, gets the link numbered from 1, and takes each
   * field from the analysis or its default; a failed analysis yields the
   * fixed default record.
   */
  lemma NewsDataForFacts(topic: string, i: nat, analysis: Analysis)
    ensures var r := NewsDataFor(topic, i, analysis);
      && (r.None? <==> analysis.NotAnObject?)
      && (r.Some? ==> r.value.content == MockContent(topic)
                      && r.value.url == Some("https://example.com/news/" + NatToString(i + 1)))
      && (analysis.Parsed? ==> r.Some? && r.value.title == Or(analysis.title, DefaultTitle(topic))
                               && r.value.summary == Or(analysis.summary, "")
                               && r.value.category == Or(analysis.category, "other")
                               && r.value.importance == Or(analysis.importance, "medium")
                               && r.value.keyPoints == Or(analysis.keyPoints, []))
      && (analysis.Failed? ==> r.Some? && r.value.title == DefaultTitle(topic) && r.value.source == DefaultSource
                               && r.value.category == "other" && r.value.importance == "medium"
                               && |r.value.keyPoints| == 3)
  {
  }

  /** The records the topic loop collects, in topic order. */
  function Analyzed(topics: seq<string>, analyses: nat -> Analysis): (r: seq<NewsData>)
    ensures |r| <= |topics|
  {
    if topics == [] then []
    else
      var n := |topics| - 1;
      Analyzed(topics[..n], analyses)
      + match NewsDataFor(topics[n], n, analyses(n)) case Some(d) => [d] case None => []
  }

  /** Every topic whose analysis is an object is collected. */
  lemma {:induction false} AnalyzedAllObjects(topics: seq<string>, analyses: nat -> Analysis)
    requires forall i :: 0 <= i < |topics| ==> !analyses(i).NotAnObject?
    ensures |Analyzed(topics, analyses)| == |topics|
  {
    if topics != [] {
      var n := |topics| - 1;
      AnalyzedAllObjects(topics[..n], analyses);
    }
  }

  // ---------------------------------------------------------------------------
  // Progress
  // ---------------------------------------------------------------------------

  /** The progress before topic `i` of `n`: `20 + (i * 60 // n)`. */
  function TopicProgress(i: nat, n: nat): (p: int)
    requires i < n
  {
    20 + i * 60 / n
  }

  /** Topic progress lies in [20, 80) and never goes down. */
  lemma TopicProgressFacts(i: nat, j: nat, n: nat)
    requires i <= j < n
    ensures 20 <= TopicProgress(i, n) <= TopicProgress(j, n) < 80
  {
    MulDivMonotone(i * 60, j * 60, n);
    MulDivMonotone(j * 60, n * 60 - 1, n);
    assert (n * 60 - 1) / n < 60 by {
      var q := (n * 60 - 1) / n;
      assert n * q <= n * 60 - 1;
      MulCancel(q, 60, n);
    }
  }

  /** The progress values of the topic loop. */
  function TopicProgresses(n: nat): (r: seq<int>)
    ensures |r| == n
  {
    seq(n, i requires 0 <= i < n => TopicProgress(i, n))
  }

  /** The progress values `_fetch_news_internal` writes, in order. */
  function InternalProgress(n: nat): (r: seq<int>)
  {
    [10] + TopicProgresses(n) + [85, 95, 100]
  }

  lemma InternalProgressShape(log0: seq<int>, t: seq<int>)
    ensures log0 + [10] + t + [85] + [95] + [100] == log0 + ([10] + t + [85, 95, 100])
  {
  }

  lemma StartShape(log0: seq<int>, t: seq<int>)
    ensures log0 + [0] + t == log0 + ([0] + t)
  {
  }

  /** Every progress value one job writes, in order, from the start step on. */
  function ProgressRun(n: nat): (r: seq<int>)
  {
    [0] + InternalProgress(n)
  }

  /** A job's progress starts at 0, never goes down, stays within [0, 100] and ends at 100. */
  lemma ProgressRunOrdered(n: nat)
    ensures var r := ProgressRun(n);
      && r[0] == 0 && r[|r| - 1] == 100
      && forall i, j :: 0 <= i <= j < |r| ==> 0 <= r[i] <= r[j] <= 100
  {
    var r := ProgressRun(n);
    forall i, j | 0 <= i <= j < |r| ensures 0 <= r[i] <= r[j] <= 100 {
      if 2 <= i < n + 2 {
        TopicProgressFacts(i - 2, i - 2, n);
      }
      if 2 <= j < n + 2 {
        TopicProgressFacts(j - 2, j - 2, n);
        if 2 <= i {
          TopicProgressFacts(i - 2, j - 2, n);
        }
      }
    }
  }

  // ---------------------------------------------------------------------------
  // Tables
  // ---------------------------------------------------------------------------

  function Row(d: NewsData, id: nat, now: int): (r: NewsItem)
  {
    NewsItem(id, d.title, d.source, d.content, d.summary, d.url, d.category, d.importance, d.keyPoints, now, now)
  }

  function Data(r: NewsItem): (d: NewsData)
  {
    NewsData(r.title, r.source, r.content, r.summary, r.category, r.importance, r.keyPoints, r.url)
  }

  /** A saved row holds exactly the record it was created from. */
  lemma DataRow(d: NewsData, id: nat, now: int)
    ensures Data(Row(d, id, now)) == d && Row(d, id, now).id == id
  {
  }

  function DataOf(rows: seq<NewsItem>): (r: seq<NewsData>)
    ensures |r| == |rows|
  {
    if rows == [] then [] else DataOf(rows[..|rows| - 1]) + [Data(rows[|rows| - 1])]
  }

  /** The records whose create succeeded (`saved(k)` for the k-th record), in order. */
  function Kept(ds: seq<NewsData>, saved: nat -> bool): (r: seq<NewsData>)
    ensures |r| <= |ds|
  {
    if ds == [] then []
    else Kept(ds[..|ds| - 1], saved) + (if saved(|ds| - 1) then [ds[|ds| - 1]] else [])
  }

  function Dates(h: seq<FetchRecord>): (r: seq<int>)
    ensures |r| == |h|
  {
    if h == [] then [] else [h[0].fetchDate] + Dates(h[1..])
  }

  predicate Distinct(s: seq<int>)
  {
    forall i, j :: 0 <= i < j < |s| ==> s[i] != s[j]
  }

  /** The `unique_together = ['fetch_date']` declaration: one history row per day. */
  predicate HistoryUnique(h: seq<FetchRecord>)
  {
    Distinct(Dates(h))
  }

  /** The first history row of a day. */
  function FindRecord(h: seq<FetchRecord>, date: int): (r: Option<FetchRecord>)
    ensures r.Some? ==> r.value in h && r.value.fetchDate == date
    ensures r.None? <==> date !in Dates(h)
  {
    if h == [] then None else if h[0].fetchDate == date then Some(h[0]) else FindRecord(h[1..], date)
  }

  /** `update_or_create(fetch_date=..., defaults=...)`: update the day's row, or append one. */
  function UpsertHistory(h: seq<FetchRecord>, rec: FetchRecord): (r: seq<FetchRecord>)
  {
    if h == [] then [rec]
    else if h[0].fetchDate == rec.fetchDate then
      [h[0].(newsCount := rec.newsCount, status := rec.status, logMessage := rec.logMessage)] + h[1..]
    else [h[0]] + UpsertHistory(h[1..], rec)
  }

  /** An upsert adds the day to the dates only when it was not there. */
  lemma {:induction false} UpsertHistoryDates(h: seq<FetchRecord>, rec: FetchRecord)
    ensures Dates(UpsertHistory(h, rec)) == if rec.fetchDate in Dates(h) then Dates(h) else Dates(h) + [rec.fetchDate]
  {
    if h != [] {
      var u := UpsertHistory(h, rec);
      if h[0].fetchDate == rec.fetchDate {
        assert u[1..] == h[1..];
      } else {
        UpsertHistoryDates(h[1..], rec);
        assert u[1..] == UpsertHistory(h[1..], rec);
        assert Dates(h) == [h[0].fetchDate] + Dates(h[1..]);
      }
    }
  }

  /** An upsert keeps the history at one row per day. */
  lemma UpsertHistoryUnique(h: seq<FetchRecord>, rec: FetchRecord)
    requires HistoryUnique(h)
    ensures HistoryUnique(UpsertHistory(h, rec))
  {
    UpsertHistoryDates(h, rec);
  }

  /**
   * After an upsert the day's row holds the new count, status and message,
   * keeps its creation time when it existed, and every other day's row is as
   * it was.
   */
  lemma {:induction false} UpsertHistoryFind(h: seq<FetchRecord>, rec: FetchRecord, date: int)
    ensures var r := FindRecord(UpsertHistory(h, rec), date);
      if date == rec.fetchDate then
        r.Some? && r.value.newsCount == rec.newsCount && r.value.status == rec.status
        && r.value.logMessage == rec.logMessage
        && r.value.createdAt == (var prev := FindRecord(h, date); if prev.Some? then prev.value.createdAt else rec.createdAt)
      else r == FindRecord(h, date)
  {
    if h != [] && h[0].fetchDate != rec.fetchDate {
      UpsertHistoryFind(h[1..], rec, date);
      assert UpsertHistory(h, rec)[1..] == UpsertHistory(h[1..], rec);
    }
  }

  /** The news and history tables. */
  class NewsDb {
    var items: seq<NewsItem>
    var history: seq<FetchRecord>
    var nextId: nat

    ghost predicate Valid()
      reads this
    {
      HistoryUnique(history) && forall k :: 0 <= k < |items| ==> items[k].id < nextId
    }

    constructor ()
      ensures Valid() && items == [] && history == [] && nextId == 1
    {
      items, history, nextId := [], [], 1;
    }

    /** `NewsItem.objects.create`, stamped with the current time. */
    method Create(d: NewsData, now: int) returns (row: NewsItem)
      requires Valid()
      modifies this
      ensures Valid()
      ensures row == Row(d, old(nextId), now) && items == old(items) + [row]
      ensures history == old(history) && nextId == old(nextId) + 1
    {
      row := Row(d, nextId, now);
      items := items + [row];
      nextId := nextId + 1;
    }
  }

  // ---------------------------------------------------------------------------
  // The service
  // ---------------------------------------------------------------------------

  const BusyError: string := "正在获取新闻，请稍后再试"

  function SuccessMessage(count: nat): (r: string)
  {
    "成功获取" + NatToString(count) + "条新闻"
  }

  /** The class-level `_fetch_status` record of `NewsService`, shared by all instances. */
  class NewsService {
    var isFetching: bool
    var progress: int
    var message: string
    var startTime: Option<int>
    var estimatedCompletion: Option<int>
    /** Every progress value written so far, in order. */
    ghost var progressLog: seq<int>

    constructor ()
      ensures !isFetching && progress == 0 && message == "" && startTime.None? && estimatedCompletion.None?
      ensures progressLog == []
    {
      isFetching, progress, message, startTime, estimatedCompletion := false, 0, "", None, None;
      progressLog := [];
    }

    /** `_update_status`: only the progress and the message change. */
    method UpdateStatus(p: int, msg: string)
      modifies this
      ensures progress == p && message == msg
      ensures isFetching == old(isFetching) && startTime == old(startTime)
      ensures estimatedCompletion == old(estimatedCompletion)
      ensures progressLog == old(progressLog) + [p]
    {
      progress, message := p, msg;
      progressLog := progressLog + [p];
    }

    /**
     * `start_fetch_task`: refused while a job runs; otherwise the job runs.
     * The outcome is the refusal's message, or None once the job has ended.
     */
    method StartFetchTask(db: NewsDb, maxNewsCount: int, topicsReply: Option<seq<string>>,
                          analyses: nat -> Analysis, saved: nat -> bool, today: int, now: int)
      returns (error: Option<string>)
      requires db.Valid()
      modifies this, db
      ensures db.Valid()
      ensures error.Some? <==> old(isFetching)
      ensures error.Some? ==> error == Some(BusyError) && unchanged(this) && unchanged(db)
      ensures error.None? ==>
        var topics := GenerateNewsTopics(maxNewsCount, topicsReply);
        && Finished(db, old(db.items), old(db.history), topics, analyses, saved, today, now)
        && startTime == Some(now) && estimatedCompletion == Some(now + 5 * 60)
        && progressLog == old(progressLog) + ProgressRun(|topics|)
    {
      if isFetching {
        return Some(BusyError);
      }
      FetchTask(db, maxNewsCount, topicsReply, analyses, saved, today, now);
      error := None;
    }

    /**
     * The state a finished job leaves: not fetching, at 100 with the saved
     * count in the message; the new rows hold exactly the collected records
     * whose create succeeded; and the day's history row says "success" with
     * that count.
     */
    ghost predicate Finished(db: NewsDb, items0: seq<NewsItem>, history0: seq<FetchRecord>,
                             topics: seq<string>, analyses: nat -> Analysis, saved: nat -> bool, today: int, now: int)
      reads this, db
    {
      Stored(db, items0, history0, Kept(Analyzed(topics, analyses), saved), today, now)
    }

    /** The kept records follow the old rows, today's history row counts them, and the job is done. */
    ghost predicate Stored(db: NewsDb, items0: seq<NewsItem>, history0: seq<FetchRecord>,
                           kept: seq<NewsData>, today: int, now: int)
      reads this, db
    {
      && !isFetching && progress == 100 && message == SuccessMessage(|kept|)
      && |items0| <= |db.items| && db.items[..|items0|] == items0 && DataOf(db.items[|items0|..]) == kept
      && db.history == UpsertHistory(history0, FetchRecord(today, |kept|, "success", "", now))
    }

    /** `fetch_task`: mark the job started, run it, and make sure it ends not fetching. */
    method FetchTask(db: NewsDb, maxNewsCount: int, topicsReply: Option<seq<string>>,
                     analyses: nat -> Analysis, saved: nat -> bool, today: int, now: int)
      requires db.Valid()
      modifies this, db
      ensures db.Valid()
      ensures var topics := GenerateNewsTopics(maxNewsCount, topicsReply);
        && Finished(db, old(db.items), old(db.history), topics, analyses, saved, today, now)
        && startTime == Some(now) && estimatedCompletion == Some(now + 5 * 60)
        && progressLog == old(progressLog) + ProgressRun(|topics|)
    {
      isFetching, progress, message := true, 0, "开始获取新闻...";
      startTime, estimatedCompletion := Some(now), Some(now + 5 * 60);
      ghost var log0 := progressLog;
      progressLog := progressLog + [0];
      FetchNewsInternal(db, maxNewsCount, topicsReply, analyses, saved, today, now);
      // the `finally` step
      isFetching := false;
      StartShape(log0, InternalProgress(|GenerateNewsTopics(maxNewsCount, topicsReply)|));
    }

    /** `_fetch_news_internal`: topics, one record per analysable topic, save, history, done. */
    method FetchNewsInternal(db: NewsDb, maxNewsCount: int, topicsReply: Option<seq<string>>,
                             analyses: nat -> Analysis, saved: nat -> bool, today: int, now: int)
      requires db.Valid()
      modifies this, db
      ensures db.Valid()
      ensures startTime == old(startTime) && estimatedCompletion == old(estimatedCompletion)
      ensures var topics := GenerateNewsTopics(maxNewsCount, topicsReply);
        && Finished(db, old(db.items), old(db.history), topics, analyses, saved, today, now)
        && progressLog == old(progressLog) + InternalProgress(|topics|)
    {
      var topics := GenerateNewsTopics(maxNewsCount, topicsReply);
      ghost var log0, items0, history0 := progressLog, db.items, db.history;
      UpdateStatus(10, "生成新闻话题...");
      var newsItems := CollectTopics(topics, analyses);
      SaveAndRecord(db, newsItems, saved, today, now);
      InternalProgressShape(log0, TopicProgresses(|topics|));
    }

    /** The end of `_fetch_news_internal`: save the records, record the history row, report success. */
    method SaveAndRecord(db: NewsDb, newsItems: seq<NewsData>, saved: nat -> bool, today: int, now: int)
      requires db.Valid()
      modifies this, db
      ensures db.Valid()
      ensures startTime == old(startTime) && estimatedCompletion == old(estimatedCompletion)
      ensures Stored(db, old(db.items), old(db.history), Kept(newsItems, saved), today, now)
      ensures progressLog == old(progressLog) + [85] + [95] + [100]
    {
      ghost var items0, history0 := db.items, db.history;
      UpdateStatus(85, "保存到数据库...");
      var count := SaveNewsItems(db, newsItems, saved, now);
      ghost var items1 := db.items;
      UpdateStatus(95, "记录获取历史...");
      RecordFetchHistory(db, count, "success", "", today, now);
      assert db.items == items1;
      isFetching, progress, message := false, 100, SuccessMessage(count);
      progressLog := progressLog + [100];
    }

    /** The topic loop of `_fetch_news_internal`: report progress, then build the topic's record. */
    method CollectTopics(topics: seq<string>, analyses: nat -> Analysis) returns (newsItems: seq<NewsData>)
      modifies this
      ensures newsItems == Analyzed(topics, analyses)
      ensures progressLog == old(progressLog) + TopicProgresses(|topics|)
      ensures isFetching == old(isFetching) && startTime == old(startTime)
      ensures estimatedCompletion == old(estimatedCompletion)
    {
      newsItems := [];
      var i := 0;
      while i < |topics|
        invariant 0 <= i <= |topics|
        invariant newsItems == Analyzed(topics[..i], analyses)
        invariant progressLog == old(progressLog) + TopicProgresses(|topics|)[..i]
        invariant isFetching == old(isFetching) && startTime == old(startTime)
        invariant estimatedCompletion == old(estimatedCompletion)
      {
        UpdateStatus(TopicProgress(i, |topics|), "处理话题: " + topics[i]);
        assert TopicProgresses(|topics|)[..i + 1] == TopicProgresses(|topics|)[..i] + [TopicProgress(i, |topics|)];
        var d := NewsDataFor(topics[i], i, analyses(i));
        assert topics[..i + 1][..i] == topics[..i];
        if d.Some? {
          newsItems := newsItems + [d.value];
        }
        i := i + 1;
      }
      assert topics[..i] == topics;
      assert TopicProgresses(|topics|)[..i] == TopicProgresses(|topics|);
    }

    /** `_save_news_items`: create a row per record; a failing create is skipped. */
    method SaveNewsItems(db: NewsDb, ds: seq<NewsData>, saved: nat -> bool, now: int) returns (count: nat)
      requires db.Valid()
      modifies db
      ensures db.Valid() && db.history == old(db.history)
      ensures count == |Kept(ds, saved)| && count <= |ds|
      ensures |old(db.items)| <= |db.items| && db.items[..|old(db.items)|] == old(db.items)
      ensures DataOf(db.items[|old(db.items)|..]) == Kept(ds, saved)
    {
      ghost var items0 := db.items;
      count := 0;
      var i := 0;
      while i < |ds|
        invariant 0 <= i <= |ds|
        invariant db.Valid() && db.history == old(db.history)
        invariant count == |Kept(ds[..i], saved)|
        invariant |items0| <= |db.items| && db.items[..|items0|] == items0
        invariant DataOf(db.items[|items0|..]) == Kept(ds[..i], saved)
      {
        assert ds[..i + 1][..i] == ds[..i];
        if saved(i) {
          ghost var before := db.items[|items0|..];
          var row := db.Create(ds[i], now);
          assert db.items[|items0|..] == before + [row];
          assert (before + [row])[..|before + [row]| - 1] == before;
          count := count + 1;
        }
        i := i + 1;
      }
      assert ds[..i] == ds;
    }

    /** `_record_fetch_history`: at most one history row per day, updated in place. */
    method RecordFetchHistory(db: NewsDb, newsCount: nat, status: string, log: string, today: int, now: int)
      requires db.Valid()
      modifies db
      ensures db.Valid() && db.items == old(db.items) && db.nextId == old(db.nextId)
      ensures db.history == UpsertHistory(old(db.history), FetchRecord(today, newsCount, status, log, now))
    {
      var rec := FetchRecord(today, newsCount, status, log, now);
      UpsertHistoryUnique(db.history, rec);
      db.history := UpsertHistory(db.history, rec);
    }
  }
}
