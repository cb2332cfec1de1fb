/**
 * The agent's HTTP server (ai-news-agent/api_server.py): the shared
 * `fetch_status` record and `update_fetch_status`, the guards of the fetch
 * route and the life of its background job, the report listing, and the
 * structured news route with its category mapping.
 *
 * The server is a class holding the status record, the news agent and the
 * model manager; a ghost `history` keeps every status the record takes, which
 * is what a poller may observe. The job body runs as a sequential procedure
 * straight after the route has answered. What the job's collaborators see
 * (the feeds, the language model, the backend the model manager asks, the
 * clocks) are parameters, bundled in `Collection` and `Picking`.
 */
module ApiServer {
  import opened Wrappers
  import opened Dates
  import opened Sorting
  import AgentConfig
  import RssFetcher
  import AiProcessor
  import NA = NewsAgent
  import MM = ModelManager

  // ---------------------------------------------------------------------------
  // The status record
  // ---------------------------------------------------------------------------

  /** The global `fetch_status` dict. */
  datatype FetchStatus = FetchStatus(
    isFetching: bool, progress: int, message: string,
    startTime: Option<string>, estimatedCompletion: Option<string>, lastError: Option<string>)

  /** The record as the module loads it. */
  const Idle: FetchStatus := FetchStatus(false, 0, "", None, None, None)

  /** One call `update_fetch_status(progress, message, error)`; `error` is None when the call omits it. */
  datatype Update = Update(progress: int, message: string, error: Option<string>)

  /** The record after an update: the three keys it names change, `is_fetching`, `start_time` and `estimated_completion` are kept. */
  function Apply(s: FetchStatus, u: Update): (r: FetchStatus)
    ensures r.isFetching == s.isFetching && r.startTime == s.startTime && r.estimatedCompletion == s.estimatedCompletion
    ensures r.progress == u.progress && r.message == u.message && r.lastError == u.error
  {
    s.(progress := u.progress, message := u.message, lastError := u.error)
  }

  /** An update leaves no trace of the previous one: only the latest update shows. */
  lemma ApplyOverwrites(s: FetchStatus, u1: Update, u2: Update)
    ensures Apply(Apply(s, u1), u2) == Apply(s, u2)
  {
  }

  /** The records seen after each of a run of updates. */
  function Statuses(s: FetchStatus, us: seq<Update>): (r: seq<FetchStatus>)
    ensures |r| == |us|
  {
    seq(|us|, i requires 0 <= i < |us| => Apply(s, us[i]))
  }

  /** The record after a run of updates. */
  function After(s: FetchStatus, us: seq<Update>): (r: FetchStatus)
  {
    if us == [] then s else Apply(s, us[|us| - 1])
  }

  /** One more update. */
  lemma StatusesSnoc(s: FetchStatus, us: seq<Update>, u: Update)
    ensures Statuses(s, us + [u]) == Statuses(s, us) + [Apply(s, u)]
    ensures Apply(After(s, us), u) == Apply(s, u) == After(s, us + [u])
  {
    assert forall i :: 0 <= i < |us| ==> (us + [u])[i] == us[i];
  }

  /** Two runs of updates, one after the other. */
  lemma StatusesAppend(s: FetchStatus, a: seq<Update>, b: seq<Update>)
    ensures Statuses(s, a) + Statuses(After(s, a), b) == Statuses(s, a + b)
    ensures After(After(s, a), b) == After(s, a + b)
  {
    assert forall i :: 0 <= i < |b| ==> (a + b)[|a| + i] == b[i];
    assert forall i :: 0 <= i < |a| ==> (a + b)[i] == a[i];
  }

  /** The records after one update and then a run of them, following earlier records. */
  lemma FirstThenRest(h: seq<FetchStatus>, s: FetchStatus, u: Update, rest: seq<Update>)
    ensures (h + [Apply(s, u)]) + Statuses(Apply(s, u), rest) == h + Statuses(s, [u] + rest)
    ensures After(Apply(s, u), rest) == After(s, [u] + rest)
  {
    StatusesSnoc(s, [], u);
    assert [] + [u] == [u];
    StatusesAppend(s, [u], rest);
  }

  /** A job's records when its updates come in two runs. */
  lemma JobTraceSplit(now: string, a: seq<Update>, b: seq<Update>)
    ensures [Begun(now)] + Statuses(Begun(now), a) + Statuses(After(Begun(now), a), b)
              + [After(After(Begun(now), a), b).(isFetching := false)] == JobTrace(now, a + b)
  {
    StatusesAppend(Begun(now), a, b);
  }

  /** A job's records after the earlier ones: the start, two runs of updates and the end make one trace. */
  lemma JobTraceAfter(h0: seq<FetchStatus>, now: string, a: seq<Update>, b: seq<Update>)
    ensures var x := Begun(now);
      h0 + [x] + Statuses(x, a) + Statuses(After(x, a), b) + [After(After(x, a), b).(isFetching := false)]
        == h0 + JobTrace(now, a + b)
  {
    var x := Begun(now);
    JobTraceSplit(now, a, b);
    Regroup(h0, x, Statuses(x, a), Statuses(After(x, a), b), After(After(x, a), b).(isFetching := false));
  }

  /** The records a job appends, regrouped: what came before, the start, two runs, the end. */
  lemma Regroup(h0: seq<FetchStatus>, x: FetchStatus, a: seq<FetchStatus>, b: seq<FetchStatus>, z: FetchStatus)
    ensures h0 + [x] + a + b + [z] == h0 + ([x] + a + b + [z])
  {
  }

  const StartMessage: string := "开始抓取新闻..."

  /** The record as the job sets it on start. */
  function Begun(now: string): (r: FetchStatus)
    ensures r.isFetching && r.progress == 0 && r.lastError.None? && r.startTime == Some(now)
  {
    FetchStatus(true, 0, StartMessage, Some(now), None, None)
  }

  /** Every record a job shows: the start, one per update, and the end in `finally`. */
  function JobTrace(now: string, us: seq<Update>): (r: seq<FetchStatus>)
  {
    [Begun(now)] + Statuses(Begun(now), us) + [After(Begun(now), us).(isFetching := false)]
  }

  /**
   * A job's records: it starts fetching with progress 0 and no error; every
   * record until the end says fetching and keeps the start time; the last says
   * not fetching and keeps the progress, message and error of the last update.
   */
  lemma JobTraceFacts(now: string, us: seq<Update>)
    ensures var r := JobTrace(now, us);
      && |r| == |us| + 2
      && r[0] == Begun(now) && r[0].isFetching && r[0].progress == 0 && r[0].lastError.None?
      && (forall i :: 0 <= i < |r| - 1 ==> r[i].isFetching && r[i].startTime == Some(now))
      && !r[|r| - 1].isFetching && r[|r| - 1].startTime == Some(now)
      && (us == [] ==> r[|r| - 1] == Begun(now).(isFetching := false))
      && (us != [] ==>
            var u := us[|us| - 1];
            r[|r| - 1].progress == u.progress && r[|r| - 1].message == u.message && r[|r| - 1].lastError == u.error)
  {
    var r := JobTrace(now, us);
    assert forall i :: 1 <= i < |r| - 1 ==> r[i] == Apply(Begun(now), us[i - 1]);
  }

  // ---------------------------------------------------------------------------
  // The job's updates
  // ---------------------------------------------------------------------------

  /** A truthy optional string: present and not empty. */
  predicate Given(o: Option<string>)
  {
    o.Some? && o.value != ""
  }

  const InitMessage: string := "初始化新闻代理..."
  const FailurePrefix: string := "抓取失败: "

  /** What `str(e)` gives for the `AttributeError` raised by `news_agent.update_model`, which `NewsAgent` does not define. */
  const UpdateModelError: string := "'NewsAgent' object has no attribute 'update_model'"

  function SelectingUpdate(id: string): Update
  {
    Update(5, "选择AI模型: " + id + "...", None)
  }

  function SelectedUpdate(name: string): Update
  {
    Update(10, "已选择模型: " + name, None)
  }

  const InitUpdate: Update := Update(15, InitMessage, None)

  /** The `except` arm: progress 0 and the error in both the message and `last_error`. */
  function FailureUpdate(e: string): (u: Update)
    ensures u.progress == 0 && u.error == Some(e) && u.message == FailurePrefix + e
  {
    Update(0, FailurePrefix + e, Some(e))
  }

  /** The progress callback's calls. */
  function StepUpdates(steps: seq<NA.Step>): (r: seq<Update>)
    ensures |r| == |steps|
  {
    seq(|steps|, i requires 0 <= i < |steps| => Update(steps[i].progress, steps[i].message, None))
  }

  /** What the job's collection step sees: the sources and their feeds, the model's analyses and summary, the clock, and a failing write. */
  datatype Collection = Collection(
    sources: seq<AgentConfig.SourceConfig>, feeds: seq<Result<seq<RssFetcher.Entry>>>,
    analyse: RssFetcher.RssArticle -> Option<AiProcessor.ProcessedNews>,
    aiSummary: Option<string>, generatedTime: string, saveError: Option<string>)

  /** What the model manager's `select_model` sees: its clock, its configuration and the backend's replies. */
  datatype Picking = Picking(clock: int, settings: MM.Settings, backend: MM.Backend)

  function JobArticles(d: Date, c: Collection): seq<RssFetcher.RssArticle>
    requires Valid(d) && |c.feeds| == |c.sources|
  {
    RssFetcher.Collected(c.sources, c.feeds, Ordinal(d))
  }

  function JobNews(d: Date, c: Collection): seq<AiProcessor.ProcessedNews>
    requires Valid(d) && |c.feeds| == |c.sources|
  {
    AiProcessor.Succeeded(NA.Outcomes(JobArticles(d, c), c.analyse))
  }

  /** The collection re-raises a failing write: there were news to save and writing raised. */
  predicate JobFails(d: Date, c: Collection)
    requires Valid(d) && |c.feeds| == |c.sources|
  {
    JobArticles(d, c) != [] && JobNews(d, c) != [] && c.saveError.Some?
  }

  /** The collection saves a report: there were news to save and writing succeeded. */
  predicate JobSaves(d: Date, c: Collection)
    requires Valid(d) && |c.feeds| == |c.sources|
  {
    JobArticles(d, c) != [] && JobNews(d, c) != [] && c.saveError.None?
  }

  /** The report the collection saves. */
  function JobReport(d: Date, c: Collection): NA.AgentReport
    requires Valid(d) && |c.feeds| == |c.sources|
  {
    NA.CollectedReport(d, |JobArticles(d, c)|, JobNews(d, c), c.aiSummary, c.generatedTime)
  }

  /** The model `select_model` returns for the job, None when no model id was given. */
  function Selected(st: MM.Snapshot, modelId: Option<string>, p: Picking): Option<MM.ModelConfig>
    requires MM.WellFormed(st)
  {
    if Given(modelId) then MM.Select(st, modelId.value, p.clock, p.settings, p.backend).model else None
  }

  /** The model step's updates, with the model the job meant to announce. */
  function ModelUpdates(modelId: Option<string>, selected: Option<MM.ModelConfig>): (r: seq<Update>)
    ensures !Given(modelId) ==> r == []
    ensures Given(modelId) ==> |r| >= 1 && r[0] == SelectingUpdate(modelId.value) && (|r| == 2 <==> selected.Some?)
  {
    if !Given(modelId) then []
    else [SelectingUpdate(modelId.value)] + (if selected.Some? then [SelectedUpdate(selected.value.modelName)] else [])
  }

  /** The updates from `初始化新闻代理...` on: the callback's steps, then the failure when the collection raised. */
  function CollectionUpdates(d: Date, c: Collection): seq<Update>
    requires Valid(d) && |c.feeds| == |c.sources|
  {
    [InitUpdate] + StepUpdates(NA.CollectionSteps(JobArticles(d, c), |JobNews(d, c)|, c.saveError))
    + (if JobFails(d, c) then [FailureUpdate(c.saveError.value)] else [])
  }

  /** The collection's updates are the first one, then the callback's steps and the failure of the run. */
  lemma CollectionUpdatesSplit(d: Date, c: Collection, steps: seq<NA.Step>, failure: Option<string>)
    requires Valid(d) && |c.feeds| == |c.sources|
    requires steps == NA.CollectionSteps(JobArticles(d, c), |JobNews(d, c)|, c.saveError)
    requires failure == (if JobFails(d, c) then Some(c.saveError.value) else None)
    ensures CollectionUpdates(d, c) == [InitUpdate] + (StepUpdates(steps) + (if failure.Some? then [FailureUpdate(failure.value)] else []))
  {
  }

  /** The updates of a job that selects the model and goes on to collect, as the route evidently means it to. */
  function JobUpdates(d: Date, c: Collection, modelId: Option<string>, selected: Option<MM.ModelConfig>): seq<Update>
    requires Valid(d) && |c.feeds| == |c.sources|
  {
    ModelUpdates(modelId, selected) + CollectionUpdates(d, c)
  }

  /** The updates of a job as written: once a model is found, `news_agent.update_model` raises and the job fails at once. */
  function JobUpdatesAsWritten(d: Date, c: Collection, modelId: Option<string>, selected: Option<MM.ModelConfig>): seq<Update>
    requires Valid(d) && |c.feeds| == |c.sources|
  {
    if Given(modelId) && selected.Some? then [SelectingUpdate(modelId.value), FailureUpdate(UpdateModelError)]
    else JobUpdates(d, c, modelId, selected)
  }

  /**
   * How a job ends: not fetching; with `last_error` set to the write's error
   * and progress 0 exactly when the collection raised; otherwise with progress
   * 100 and no error. Every earlier record says fetching.
   */
  lemma JobOutcome(now: string, d: Date, c: Collection, modelId: Option<string>, selected: Option<MM.ModelConfig>)
    requires Valid(d) && |c.feeds| == |c.sources|
    ensures var r := JobTrace(now, JobUpdates(d, c, modelId, selected));
      var last := r[|r| - 1];
      && |r| >= 4
      && (forall i :: 0 <= i < |r| - 1 ==> r[i].isFetching)
      && !last.isFetching && last.startTime == Some(now)
      && (last.lastError.Some? <==> JobFails(d, c))
      && (JobFails(d, c) ==> last.progress == 0 && last.lastError == c.saveError && last.message == FailurePrefix + c.saveError.value)
      && (!JobFails(d, c) ==> last.progress == 100)
  {
    var us := JobUpdates(d, c, modelId, selected);
    var steps := NA.CollectionSteps(JobArticles(d, c), |JobNews(d, c)|, c.saveError);
    NA.CollectionProgress(JobArticles(d, c), |JobNews(d, c)|, c.saveError);
    JobTraceFacts(now, us);
    var u := us[|us| - 1];
    if JobFails(d, c) {
      assert u == FailureUpdate(c.saveError.value);
    } else {
      assert u == Update(steps[|steps| - 1].progress, steps[|steps| - 1].message, None);
    }
  }

  /**
   * The model step as written against the step as meant: with a model id that
   * names a model, the written job stops after `选择AI模型` with progress 0
   * and the `AttributeError` text as `last_error`, without collecting; the
   * meant job announces the model at progress 10 and goes on to `初始化新闻代理`.
   */
  lemma UpdateModelAborts(now: string, d: Date, c: Collection, id: string, m: MM.ModelConfig)
    requires Valid(d) && |c.feeds| == |c.sources| && id != ""
    ensures var w := JobTrace(now, JobUpdatesAsWritten(d, c, Some(id), Some(m)));
      && |w| == 4 && w[3].progress == 0 && w[3].lastError == Some(UpdateModelError) && !w[3].isFetching
    ensures var r := JobTrace(now, JobUpdates(d, c, Some(id), Some(m)));
      && r[2].progress == 10 && r[2].message == "已选择模型: " + m.modelName
      && r[3].progress == 15 && r[3].message == InitMessage
      && (r[|r| - 1].lastError.Some? <==> JobFails(d, c))
  {
    JobOutcome(now, d, c, Some(id), Some(m));
    var us := JobUpdates(d, c, Some(id), Some(m));
    assert us[1] == SelectedUpdate(m.modelName) && us[2] == InitUpdate;
  }

  // ---------------------------------------------------------------------------
  // Routes' values
  // ---------------------------------------------------------------------------

  /** The body of `POST /api/fetch-news`. */
  datatype FetchRequest = FetchRequest(date: Option<string>, forceRefresh: bool, modelId: Option<string>)

  /** The route's answers: 409 with the record, 400, the existing report, or the job started. */
  datatype FetchReply =
    | Busy(error: string, status: FetchStatus)
    | BadDate(error: string)
    | ReportExists(message: string, report: NA.Document)
    | Started(message: string, targetDate: string)

  const BusyError: string := "正在抓取新闻，请稍后再试"
  const BadDateError: string := "日期格式错误，应为YYYY-MM-DD"
  const StartedMessage: string := "开始抓取新闻"

  /** The date a request names: `strptime(s, '%Y-%m-%d')` when a date is given, today otherwise; None when the text is not a date. */
  function TargetDate(date: Option<string>, today: Date): (r: Option<Date>)
    requires Valid(today)
    ensures r.Some? ==> Valid(r.value)
    ensures !Given(date) ==> r == Some(today)
    ensures Given(date) ==> r == Strptime(date.value, IsoFormat)
  {
    if Given(date) then Strptime(date.value, IsoFormat) else Some(today)
  }

  /** A date the client writes as `YYYY-MM-DD` is the day the route works on. */
  lemma TargetDateIso(d: Date, today: Date)
    requires Valid(d) && Valid(today)
    ensures TargetDate(Some(Iso(d)), today) == Some(d)
  {
    IsoRoundTrip(d);
  }

  /** One entry of `GET /api/reports`. */
  datatype ReportInfo = ReportInfo(date: string, totalCount: nat, summary: string, generatedTime: string)

  function InfoDate(x: ReportInfo): string
  {
    x.date
  }

  /** The entry for a readable report file of day `d`. */
  function InfoOf(d: Date, doc: NA.Document): (r: ReportInfo)
    requires Valid(d)
    ensures r.date == Iso(d)
  {
    match doc {
      case FullReport(rep) => ReportInfo(Iso(d), rep.totalCount, rep.summary, rep.generatedTime)
      case SimplifiedReport(b) => ReportInfo(Iso(d), b.totalCount, b.summary, b.generatedTime)
      case Unreadable => ReportInfo(Iso(d), 0, "", "")
    }
  }

  /** The entries in listing order: dates that do not parse and reports that cannot be read are skipped. */
  function ReportInfos(dates: seq<string>, docs: map<string, NA.Document>): (r: seq<ReportInfo>)
    ensures |r| <= |dates|
  {
    if dates == [] then [] else ReportInfos(dates[..|dates| - 1], docs) + InfoAt(dates[|dates| - 1], docs)
  }

  /** The entry of one listed date: none when the date does not parse or its report cannot be read. */
  function InfoAt(date: string, docs: map<string, NA.Document>): (r: seq<ReportInfo>)
    ensures |r| <= 1
  {
    match Strptime(date, PackedFormat) {
      case None => []
      case Some(d) =>
        match NA.Read(docs, NA.ReportFile(d)) {
          case None => []
          case Some(doc) => [InfoOf(d, doc)]
        }
    }
  }

  lemma ReportInfosSnoc(dates: seq<string>, i: nat, docs: map<string, NA.Document>)
    requires i < |dates|
    ensures ReportInfos(dates[..i + 1], docs) == ReportInfos(dates[..i], docs) + InfoAt(dates[i], docs)
  {
    assert dates[..i + 1][..i] == dates[..i];
  }

  /** `get_reports`: the entries of the listed dates, sorted by date descending. */
  function Reports(names: seq<string>, docs: map<string, NA.Document>): (r: seq<ReportInfo>)
  {
    StrSort(ReportInfos(StrSort(NA.ReportDates(names), NA.Itself, false), docs), InfoDate, true)
  }

  /** A date in the list whose report can be read gives its entry. */
  lemma {:induction false} InfosInclude(dates: seq<string>, docs: map<string, NA.Document>, k: nat, d: Date)
    requires k < |dates| && Strptime(dates[k], PackedFormat) == Some(d) && NA.Read(docs, NA.ReportFile(d)).Some?
    ensures InfoOf(d, docs[NA.ReportFile(d)]) in ReportInfos(dates, docs)
    decreases |dates|
  {
    var front := dates[..|dates| - 1];
    if k < |dates| - 1 {
      assert front[k] == dates[k];
      InfosInclude(front, docs, k, d);
    } else {
      InfoAtListed(dates[k], docs, d);
    }
  }

  /** A date that parses and whose report can be read gives exactly its entry. */
  lemma InfoAtListed(date: string, docs: map<string, NA.Document>, d: Date)
    requires Strptime(date, PackedFormat) == Some(d) && NA.Read(docs, NA.ReportFile(d)).Some?
    ensures Valid(d) && NA.ReportFile(d) in docs && InfoAt(date, docs) == [InfoOf(d, docs[NA.ReportFile(d)])]
  {
  }

  /** Every entry is that of a readable report file of a valid day. */
  lemma {:induction false} InfosFromFiles(dates: seq<string>, docs: map<string, NA.Document>, x: ReportInfo)
    requires x in ReportInfos(dates, docs)
    ensures exists d :: Valid(d) && NA.Read(docs, NA.ReportFile(d)).Some? && x == InfoOf(d, docs[NA.ReportFile(d)])
    decreases |dates|
  {
    var front := dates[..|dates| - 1];
    if x in ReportInfos(front, docs) {
      InfosFromFiles(front, docs, x);
    } else {
      var d := Strptime(dates[|dates| - 1], PackedFormat).value;
      assert NA.Read(docs, NA.ReportFile(d)).Some? && x == InfoOf(d, docs[NA.ReportFile(d)]);
    }
  }

  /** Of two entries, the earlier is never of an earlier day. */
  lemma ReportsNewestFirst(names: seq<string>, docs: map<string, NA.Document>, i: nat, j: nat, a: Date, b: Date)
    requires i < j < |Reports(names, docs)| && Valid(a) && Valid(b)
    requires Reports(names, docs)[i].date == Iso(a) && Reports(names, docs)[j].date == Iso(b)
    ensures !Before(a, b)
  {
    StrSortSorted(ReportInfos(StrSort(NA.ReportDates(names), NA.Itself, false), docs), InfoDate, true);
    IsoOrder(a, b);
  }

  /**
   * The listing holds the readable reports exactly: a report file of a day
   * with a four-digit year that can be read has its entry, and every entry is
   * that of such a file.
   */
  lemma ReportsListed(names: seq<string>, docs: map<string, NA.Document>, d: Date)
    requires Valid(d) && d.year >= 1000 && NA.ReportFile(d) in names && NA.Read(docs, NA.ReportFile(d)).Some?
    ensures InfoOf(d, docs[NA.ReportFile(d)]) in Reports(names, docs)
  {
    var dates := StrSort(NA.ReportDates(names), NA.Itself, false);
    NA.ListedDates(names, d);
    PackedRoundTrip(d);
    var k :| 0 <= k < |dates| && dates[k] == Packed(d);
    InfosInclude(dates, docs, k, d);
    var infos := ReportInfos(dates, docs);
    assert InfoOf(d, docs[NA.ReportFile(d)]) in multiset(infos);
  }

  lemma ReportsFromFiles(names: seq<string>, docs: map<string, NA.Document>, x: ReportInfo)
    requires x in Reports(names, docs)
    ensures exists d :: Valid(d) && NA.Read(docs, NA.ReportFile(d)).Some? && x == InfoOf(d, docs[NA.ReportFile(d)])
  {
    var infos := ReportInfos(StrSort(NA.ReportDates(names), NA.Itself, false), docs);
    assert x in multiset(Reports(names, docs));
    assert x in infos;
    InfosFromFiles(StrSort(NA.ReportDates(names), NA.Itself, false), docs, x);
  }

  /** The categories of the backend's `News` model. */
  const BackendCategories: seq<string> := [
    "tech_breakthrough", "product_release", "industry_news", "policy_regulation",
    "research_progress", "application_case", "other"]

  /** `category_mapping.get(category, 'other')`. */
  function MapCategory(category: string): (r: string)
    ensures r in BackendCategories
    ensures category in BackendCategories ==> r == category
    ensures category == "funding_acquisition" ==> r == "industry_news"
    ensures category !in AiProcessor.Categories ==> r == "other"
  {
    if category in BackendCategories then category
    else if category == "funding_acquisition" then "industry_news"
    else "other"
  }

  /** Mapping twice maps once. */
  lemma MapCategoryIdempotent(category: string)
    ensures MapCategory(MapCategory(category)) == MapCategory(category)
  {
  }

  /** One item of the structured reply; the processing time stamp is not carried by the model's news. */
  datatype NewsItem = NewsItem(
    title: string, source: string, content: string, summary: string, originalLink: string, url: string,
    category: string, importance: string, keyPoints: seq<string>, sourceDescription: string, tags: seq<string>)

  function ItemOf(n: AiProcessor.ProcessedNews): (r: NewsItem)
    ensures r.url == r.originalLink == n.originalLink && r.category == MapCategory(n.category)
  {
    NewsItem(n.title, n.source, n.content, n.summary, n.originalLink, n.originalLink,
      MapCategory(n.category), n.importance, n.keyPoints, n.sourceDescription, n.tags)
  }

  function Items(news: seq<AiProcessor.ProcessedNews>): (r: seq<NewsItem>)
    ensures |r| == |news|
  {
    seq(|news|, i requires 0 <= i < |news| => ItemOf(news[i]))
  }

  /** `report.get('all_news', []) or report.get('top_stories', [])`. */
  function NewsData(r: NA.AgentReport): (n: seq<AiProcessor.ProcessedNews>)
    ensures r.allNews != [] ==> n == r.allNews
    ensures r.allNews == [] ==> n == r.topStories
  {
    if r.allNews != [] then r.allNews else r.topStories
  }

  /** The answers of `GET /api/news/structured`. */
  datatype StructuredReply =
    | StructuredBadDate(error: string)
    | NotFound(error: string, date: string)
    | Structured(date: string, totalCount: nat, summary: string, items: seq<NewsItem>,
                 categoryStats: map<string, nat>, importanceStats: map<string, nat>, generatedTime: string)
    | ServerError(error: string)

  /** `str(KeyError('content'))`: a simplified report's stories have no `content`. */
  const MissingContent: string := "'content'"

  /** `get_structured_news` over the output directory's files. */
  function StructuredNews(docs: map<string, NA.Document>, date: Option<string>, today: Date): (r: StructuredReply)
    requires Valid(today)
  {
    match TargetDate(date, today) {
      case None => StructuredBadDate(BadDateError)
      case Some(d) =>
        match NA.Read(docs, NA.ReportFile(d)) {
          case None => NotFound("未找到 " + Iso(d) + " 的报告", Iso(d))
          case Some(doc) =>
            match doc {
              case FullReport(rep) =>
                Structured(Iso(d), |NewsData(rep)|, rep.summary, Items(NewsData(rep)),
                  rep.categoryStats, rep.importanceStats, rep.generatedTime)
              case SimplifiedReport(b) =>
                if b.topStories != [] then ServerError(MissingContent)
                else Structured(Iso(d), 0, b.summary, [], map[], map[], b.generatedTime)
              case Unreadable => NotFound("未找到 " + Iso(d) + " 的报告", Iso(d))
            }
        }
    }
  }

  /**
   * The structured reply: 400 exactly when a date is given that is not
   * `YYYY-MM-DD`; 404 exactly when the day has no readable report; for a full
   * report, one item per news of `all_news` (or of `top_stories` when it is
   * empty), in order, each in a backend category, with the count of items.
   */
  lemma StructuredNewsFacts(docs: map<string, NA.Document>, date: Option<string>, today: Date)
    requires Valid(today)
    ensures var r := StructuredNews(docs, date, today);
      && (r.StructuredBadDate? <==> TargetDate(date, today).None?)
      && (r.NotFound? <==> TargetDate(date, today).Some? && NA.Read(docs, NA.ReportFile(TargetDate(date, today).value)).None?)
      && (r.Structured? ==>
            && r.totalCount == |r.items| && r.date == Iso(TargetDate(date, today).value)
            && forall i :: 0 <= i < |r.items| ==> r.items[i].category in BackendCategories)
      && (TargetDate(date, today).Some? && NA.Read(docs, NA.ReportFile(TargetDate(date, today).value)).Some?
          && docs[NA.ReportFile(TargetDate(date, today).value)].FullReport? ==>
            var rep := docs[NA.ReportFile(TargetDate(date, today).value)].report;
            r.Structured? && |r.items| == |NewsData(rep)|
            && forall i :: 0 <= i < |r.items| ==>
                 r.items[i].title == NewsData(rep)[i].title && r.items[i].url == NewsData(rep)[i].originalLink
                 && r.items[i].category == MapCategory(NewsData(rep)[i].category))
  {
    var r := StructuredNews(docs, date, today);
    if r.Structured? {
      assert forall i :: 0 <= i < |r.items| ==> r.items[i].category in BackendCategories;
    }
  }

  // ---------------------------------------------------------------------------
  // The server
  // ---------------------------------------------------------------------------

  class Server {
    /** `fetch_status`. */
    var status: FetchStatus
    /** Every record `fetch_status` has held, oldest first. */
    ghost var history: seq<FetchStatus>
    /** The module's `news_agent`. */
    const agent: NA.NewsAgent
    /** The module's `model_manager`. */
    const models: MM.Manager

    ghost predicate Valid()
      reads this, agent, models
    {
      agent.Valid() && models.Valid()
    }

    constructor (agent0: NA.NewsAgent, models0: MM.Manager)
      ensures status == Idle && history == [] && agent == agent0 && models == models0
    {
      status, history := Idle, [];
      agent, models := agent0, models0;
    }

    /** `update_fetch_status`. */
    method UpdateFetchStatus(progress: int, message: string, error: Option<string>)
      modifies this
      ensures status == Apply(old(status), Update(progress, message, error))
      ensures history == old(history) + [status]
    {
      status := status.(progress := progress, message := message, lastError := error);
      history := history + [status];
    }

    /** The route's answer, decided before any job starts: busy first, then the date, then the existing report. */
    function FetchNewsReply(req: FetchRequest, today: Date): (r: FetchReply)
      requires Dates.Valid(today)
      reads this, agent
      ensures r.Busy? <==> status.isFetching
      ensures r.Busy? ==> r == Busy(BusyError, status)
      ensures r.BadDate? <==> !status.isFetching && TargetDate(req.date, today).None?
      ensures r.ReportExists? <==>
        !status.isFetching && TargetDate(req.date, today).Some? && !req.forceRefresh
        && agent.ReportByDate(TargetDate(req.date, today).value).Some?
      ensures r.ReportExists? ==> r.report == agent.ReportByDate(TargetDate(req.date, today).value).value
      ensures r.Started? ==> r.targetDate == Iso(TargetDate(req.date, today).value)
    {
      if status.isFetching then Busy(BusyError, status)
      else
        match TargetDate(req.date, today) {
          case None => BadDate(BadDateError)
          case Some(d) =>
            var existing := agent.ReportByDate(d);
            if !req.forceRefresh && existing.Some? then ReportExists(Iso(d) + " 的报告已存在", existing.value)
            else Started(StartedMessage, Iso(d))
        }
    }

    /** The job's opening `fetch_status.update`. */
    method StartJob(now: string)
      modifies this
      ensures status == Begun(now) && history == old(history) + [Begun(now)]
    {
      status := FetchStatus(true, 0, StartMessage, Some(now), None, None);
      history := history + [status];
    }

    /** The model step, with the model announced as the route means it. */
    method ChooseModel(modelId: Option<string>, p: Picking)
      requires models.Valid()
      modifies this, models
      ensures models.Valid()
      ensures Given(modelId) ==> models.State() == MM.Select(old(models.State()), modelId.value, p.clock, p.settings, p.backend).after
      ensures !Given(modelId) ==> models.State() == old(models.State())
      ensures var us := ModelUpdates(modelId, Selected(old(models.State()), modelId, p));
        history == old(history) + Statuses(old(status), us) && status == After(old(status), us)
    {
      ghost var s0 := status;
      if Given(modelId) {
        UpdateFetchStatus(5, "选择AI模型: " + modelId.value + "...", None);
        StatusesSnoc(s0, [], SelectingUpdate(modelId.value));
        var selected := models.SelectModel(modelId.value, p.clock, p.settings, p.backend);
        if selected.Some? {
          UpdateFetchStatus(10, "已选择模型: " + selected.value.modelName, None);
          StatusesSnoc(s0, [SelectingUpdate(modelId.value)], SelectedUpdate(selected.value.modelName));
        }
      }
    }

    /** The model step as written: once a model is found, `news_agent.update_model` raises before the model is announced. */
    method ChooseModelAsWritten(modelId: Option<string>, p: Picking) returns (raised: Option<string>)
      requires models.Valid()
      modifies this, models
      ensures models.Valid()
      ensures Given(modelId) ==> models.State() == MM.Select(old(models.State()), modelId.value, p.clock, p.settings, p.backend).after
      ensures !Given(modelId) ==> models.State() == old(models.State())
      ensures var sel := Selected(old(models.State()), modelId, p);
        var us := if Given(modelId) && sel.Some? then [SelectingUpdate(modelId.value)] else ModelUpdates(modelId, sel);
        && history == old(history) + Statuses(old(status), us) && status == After(old(status), us)
        && raised == (if Given(modelId) && sel.Some? then Some(UpdateModelError) else None)
    {
      ghost var s0 := status;
      raised := None;
      if Given(modelId) {
        UpdateFetchStatus(5, "选择AI模型: " + modelId.value + "...", None);
        StatusesSnoc(s0, [], SelectingUpdate(modelId.value));
        var selected := models.SelectModel(modelId.value, p.clock, p.settings, p.backend);
        if selected.Some? {
          raised := Some(UpdateModelError);
        }
      }
    }

    /** The progress callback's calls, then the `except` arm when the collection raised. */
    method ReportProgress(steps: seq<NA.Step>, failure: Option<string>)
      modifies this
      ensures var us := StepUpdates(steps) + (if failure.Some? then [FailureUpdate(failure.value)] else []);
        history == old(history) + Statuses(old(status), us) && status == After(old(status), us)
    {
      ghost var s0, h0 := status, history;
      var i := 0;
      while i < |steps|
        invariant 0 <= i <= |steps|
        invariant history == h0 + Statuses(s0, StepUpdates(steps[..i]))
        invariant status == After(s0, StepUpdates(steps[..i]))
      {
        ghost var u := Update(steps[i].progress, steps[i].message, None);
        assert StepUpdates(steps[..i + 1]) == StepUpdates(steps[..i]) + [u];
        StatusesSnoc(s0, StepUpdates(steps[..i]), u);
        UpdateFetchStatus(steps[i].progress, steps[i].message, None);
        i := i + 1;
      }
      assert steps[..i] == steps;
      if failure.Some? {
        StatusesSnoc(s0, StepUpdates(steps), FailureUpdate(failure.value));
        UpdateFetchStatus(0, FailurePrefix + failure.value, failure);
      }
    }

    /** `run_daily_collection` for the job's day, with the progress callback set: its steps and the error it raises. */
    method RunCollection(d: Date, c: Collection) returns (steps: seq<NA.Step>, failure: Option<string>)
      requires agent.Valid() && Dates.Valid(d) && |c.feeds| == |c.sources|
      modifies agent
      ensures agent.Valid()
      ensures steps == NA.CollectionSteps(JobArticles(d, c), |JobNews(d, c)|, c.saveError)
      ensures failure == (if JobFails(d, c) then Some(c.saveError.value) else None)
      ensures JobSaves(d, c) ==>
        agent.docs == old(agent.docs)[NA.ReportFile(d) := NA.FullReport(JobReport(d, c))]
                                     [NA.SimplifiedFile(d) := NA.SimplifiedReport(NA.Simplify(JobReport(d, c)))]
      ensures !JobSaves(d, c) ==> agent.docs == old(agent.docs) && agent.names == old(agent.names)
    {
      var result;
      steps, result := agent.RunDailyCollection(Some(d), d, c.sources, c.feeds, c.analyse, c.aiSummary,
        c.generatedTime, c.saveError, true);
      failure := if result.Err? then Some(result.error) else None;
    }

    /** From `初始化新闻代理...` to the end of `run_daily_collection`, with the `except` arm. */
    method Collect(d: Date, c: Collection)
      requires agent.Valid() && Dates.Valid(d) && |c.feeds| == |c.sources|
      modifies this, agent
      ensures agent.Valid()
      ensures var us := CollectionUpdates(d, c);
        history == old(history) + Statuses(old(status), us) && status == After(old(status), us)
      ensures JobSaves(d, c) ==>
        agent.docs == old(agent.docs)[NA.ReportFile(d) := NA.FullReport(JobReport(d, c))]
                                     [NA.SimplifiedFile(d) := NA.SimplifiedReport(NA.Simplify(JobReport(d, c)))]
      ensures !JobSaves(d, c) ==> agent.docs == old(agent.docs) && agent.names == old(agent.names)
    {
      ghost var s0, h0 := status, history;
      UpdateFetchStatus(15, InitMessage, None);
      var steps, failure := RunCollection(d, c);
      ReportProgress(steps, failure);
      ghost var rest := StepUpdates(steps) + (if failure.Some? then [FailureUpdate(failure.value)] else []);
      FirstThenRest(h0, s0, InitUpdate, rest);
      CollectionUpdatesSplit(d, c, steps, failure);
    }

    /** The `except` arm for an error raised outside the collection, then the `finally`. */
    method AbortJob(e: string)
      modifies this
      ensures var f := [FailureUpdate(e)];
        && history == old(history) + Statuses(old(status), f) + [After(old(status), f).(isFetching := false)]
        && status == After(old(status), f).(isFetching := false)
    {
      StatusesSnoc(status, [], FailureUpdate(e));
      UpdateFetchStatus(0, FailurePrefix + e, Some(e));
      EndJob();
    }

    /** The job's `finally`: the record stops fetching and keeps the rest. */
    method EndJob()
      modifies this
      ensures status == old(status).(isFetching := false) && history == old(history) + [status]
    {
      status := status.(isFetching := false);
      history := history + [status];
    }

    /** `fetch_task`, with the model step as the route means it. */
    method FetchTask(d: Date, modelId: Option<string>, now: string, p: Picking, c: Collection)
      requires Valid() && Dates.Valid(d) && |c.feeds| == |c.sources|
      modifies this, agent, models
      ensures Valid()
      ensures history == old(history) + JobTrace(now, JobUpdates(d, c, modelId, Selected(old(models.State()), modelId, p)))
      ensures status == history[|history| - 1]
      ensures JobSaves(d, c) ==>
        agent.docs == old(agent.docs)[NA.ReportFile(d) := NA.FullReport(JobReport(d, c))]
                                     [NA.SimplifiedFile(d) := NA.SimplifiedReport(NA.Simplify(JobReport(d, c)))]
      ensures !JobSaves(d, c) ==> agent.docs == old(agent.docs) && agent.names == old(agent.names)
    {
      ghost var h0 := history;
      ghost var sel := Selected(models.State(), modelId, p);
      ghost var b := Begun(now);
      ghost var mu := ModelUpdates(modelId, sel);
      ghost var cu := CollectionUpdates(d, c);
      assert JobUpdates(d, c, modelId, sel) == mu + cu;
      StartJob(now);
      ChooseModel(modelId, p);
      Collect(d, c);
      EndJob();
      JobTraceAfter(h0, now, mu, cu);
    }

    /** `fetch_task` as written: a found model makes the job fail before it collects. */
    method FetchTaskAsWritten(d: Date, modelId: Option<string>, now: string, p: Picking, c: Collection)
      requires Valid() && Dates.Valid(d) && |c.feeds| == |c.sources|
      modifies this, agent, models
      ensures Valid()
      ensures history == old(history) + JobTrace(now, JobUpdatesAsWritten(d, c, modelId, Selected(old(models.State()), modelId, p)))
      ensures status == history[|history| - 1]
      ensures Selected(old(models.State()), modelId, p).Some? ==> agent.docs == old(agent.docs) && agent.names == old(agent.names)
    {
      ghost var h0 := history;
      ghost var sel := Selected(models.State(), modelId, p);
      ghost var b := Begun(now);
      ghost var mu := ModelUpdates(modelId, sel);
      ghost var cu := CollectionUpdates(d, c);
      StartJob(now);
      var raised := ChooseModelAsWritten(modelId, p);
      if raised.Some? {
        ghost var w := [SelectingUpdate(modelId.value)];
        assert JobUpdatesAsWritten(d, c, modelId, sel) == w + [FailureUpdate(UpdateModelError)];
        AbortJob(raised.value);
        JobTraceAfter(h0, now, w, [FailureUpdate(UpdateModelError)]);
      } else {
        assert JobUpdatesAsWritten(d, c, modelId, sel) == mu + cu;
        Collect(d, c);
        EndJob();
        JobTraceAfter(h0, now, mu, cu);
      }
    }

    /** `fetch_news`: the answer, and the job when the answer starts one. */
    method FetchNews(req: FetchRequest, today: Date, now: string, p: Picking, c: Collection) returns (reply: FetchReply)
      requires Valid() && Dates.Valid(today) && |c.feeds| == |c.sources|
      modifies this, agent, models
      ensures Valid()
      ensures reply == old(FetchNewsReply(req, today))
      ensures !reply.Started? ==>
        status == old(status) && history == old(history) && agent.docs == old(agent.docs) && models.State() == old(models.State())
      ensures reply.Started? ==>
        var d := TargetDate(req.date, today).value;
        history == old(history) + JobTrace(now, JobUpdates(d, c, req.modelId, Selected(old(models.State()), req.modelId, p)))
    {
      reply := FetchNewsReply(req, today);
      if reply.Started? {
        FetchTask(TargetDate(req.date, today).value, req.modelId, now, p, c);
      }
    }

    /** `get_reports`. */
    method GetReports() returns (reports: seq<ReportInfo>)
      ensures reports == Reports(agent.names, agent.docs)
    {
      var dates := agent.ListAvailableReports();
      var infos: seq<ReportInfo> := [];
      var i := 0;
      while i < |dates|
        invariant 0 <= i <= |dates|
        invariant infos == ReportInfos(dates[..i], agent.docs)
      {
        ReportInfosSnoc(dates, i, agent.docs);
        var parsed := Strptime(dates[i], PackedFormat);
        if parsed.Some? {
          var report := agent.ReportByDate(parsed.value);
          if report.Some? {
            infos := infos + [InfoOf(parsed.value, report.value)];
          }
        }
        i := i + 1;
      }
      assert dates[..i] == dates;
      reports := StrSort(infos, InfoDate, true);
    }

    /** `get_structured_news`, building the items one news at a time. */
    method GetStructuredNews(date: Option<string>, today: Date) returns (reply: StructuredReply)
      requires Dates.Valid(today)
      ensures reply == StructuredNews(agent.docs, date, today)
    {
      var target := TargetDate(date, today);
      if target.None? {
        return StructuredBadDate(BadDateError);
      }
      var d := target.value;
      var report := agent.ReportByDate(d);
      if report.None? || report.value.Unreadable? {
        return NotFound("未找到 " + Iso(d) + " 的报告", Iso(d));
      }
      if report.value.SimplifiedReport? {
        var b := report.value.brief;
        if b.topStories != [] {
          return ServerError(MissingContent);
        }
        return Structured(Iso(d), 0, b.summary, [], map[], map[], b.generatedTime);
      }
      var rep := report.value.report;
      var news := if rep.allNews != [] then rep.allNews else rep.topStories;
      var items: seq<NewsItem> := [];
      var i := 0;
      while i < |news|
        invariant 0 <= i <= |news|
        invariant items == Items(news[..i])
      {
        items := items + [ItemOf(news[i])];
        i := i + 1;
      }
      assert news[..i] == news;
      reply := Structured(Iso(d), |items|, rep.summary, items, rep.categoryStats, rep.importanceStats, rep.generatedTime);
    }
  }
}
