/**
 * The news agent (ai-news-agent/news_agent.py): one day's collection run
 * (fetch the feeds, process the articles, build the report, save it) with the
 * progress it reports, and the output directory of JSON report files it
 * writes and reads.
 *
 * The output directory is a class holding the file names in the order the
 * file system lists them and each file's parsed content; a file `json.load`
 * cannot read is `Unreadable`. The feeds, the language model's analysis of
 * each article, its daily summary, the clock and a failing write are
 * parameters.
 */
module NewsAgent {
  import opened Wrappers
  import opened Text
  import opened Counting
  import opened Dates
  import opened Sorting
  import opened AgentConfig
  import opened RssFetcher
  import opened AiProcessor

  // ---------------------------------------------------------------------------
  // Report files
  // ---------------------------------------------------------------------------

  const ReportPrefix: string := "ai_news_report_"
  const SimplifiedPrefix: string := "ai_news_simplified_"
  const JsonSuffix: string := ".json"

  /** The full report's file, written by `_save_results` and read by `get_report_by_date`. */
  function ReportFile(d: Date): (name: string)
    requires Valid(d)
  {
    ReportPrefix + Packed(d) + JsonSuffix
  }

  /** The simplified report's file. */
  function SimplifiedFile(d: Date): (name: string)
    requires Valid(d)
  {
    SimplifiedPrefix + Packed(d) + JsonSuffix
  }

  /** The names `glob("ai_news_report_*.json")` yields: the prefix, anything, then the suffix. */
  predicate IsReportName(name: string)
  {
    |name| >= |ReportPrefix| + |JsonSuffix|
    && name[..|ReportPrefix|] == ReportPrefix && name[|name| - |JsonSuffix|..] == JsonSuffix
  }

  /** `Path.stem` of a name ending in ".json": the name without that suffix. */
  function Stem(name: string): (r: string)
    requires |name| >= |JsonSuffix|
    ensures |r| == |name| - |JsonSuffix|
  {
    name[..|name| - |JsonSuffix|]
  }

  /** `s.split('_')[-1]`. */
  function LastSegment(s: string): (r: string)
    ensures '_' !in r
  {
    var parts := Split(s, '_');
    parts[|parts| - 1]
  }

  /** The date part `list_available_reports` takes from a report file name. */
  function DatePart(name: string): (r: string)
    requires IsReportName(name)
  {
    LastSegment(Stem(name))
  }

  /** After the last '_' comes the text that has none. */
  lemma {:induction false} SplitLast(a: string, p: string)
    requires '_' !in p
    ensures LastSegment(a + "_" + p) == p
    decreases |a|
  {
    var s := a + "_" + p;
    assert s[|a|] == '_';
    var i := IndexOf(s, '_');
    var rest := Split(s[i + 1..], '_');
    assert Split(s, '_') == [s[..i]] + rest;
    assert LastSegment(s) == rest[|rest| - 1];
    if '_' in a {
      var k :| 0 <= k < |a| && a[k] == '_';
      assert s[k] == '_';
      assert forall j :: 0 <= j < i ==> s[..i][j] == s[j];
      assert s[i + 1..] == a[i + 1..] + "_" + p;
      SplitLast(a[i + 1..], p);
    } else {
      assert forall j :: 0 <= j < |a| ==> a[j] == s[j];
      assert forall j :: 0 <= j < i ==> s[..i][j] == s[j];
      assert s[i + 1..] == p;
    }
  }

  /**
   * The file name scheme round-trips: a date's report file is a report name
   * whose date part is the date's packed form, and a simplified file is not a
   * report name.
   */
  lemma ReportFileNames(d: Date)
    requires Valid(d)
    ensures IsReportName(ReportFile(d)) && DatePart(ReportFile(d)) == Packed(d)
    ensures !IsReportName(SimplifiedFile(d))
    ensures ReportFile(d) != SimplifiedFile(d)
  {
    var name := ReportFile(d);
    assert name[..|ReportPrefix|] == ReportPrefix;
    assert name[|name| - |JsonSuffix|..] == JsonSuffix;
    assert Stem(name) == "ai_news_report" + "_" + Packed(d);
    assert '_' !in Packed(d) by {
      assert AllDigits(Packed(d));
    }
    SplitLast("ai_news_report", Packed(d));
    assert SimplifiedFile(d)[8] == 's' && name[8] == 'r';
  }

  /** Report files for dates of four-digit years sort as strings in calendar order. */
  lemma ReportFileOrder(a: Date, b: Date)
    requires Valid(a) && Valid(b) && a.year >= 1000 && b.year >= 1000
    ensures StrLess(ReportFile(a), ReportFile(b)) <==> Before(a, b)
  {
    PackedOrder(a, b);
    FourDigitYear(a.year);
    FourDigitYear(b.year);
    assert ReportFile(a) == ReportPrefix + (Packed(a) + JsonSuffix);
    assert ReportFile(b) == ReportPrefix + (Packed(b) + JsonSuffix);
    StrLessConcat(ReportPrefix, Packed(a) + JsonSuffix, ReportPrefix, Packed(b) + JsonSuffix);
    StrLessIrreflexive(ReportPrefix);
    StrLessConcat(Packed(a), JsonSuffix, Packed(b), JsonSuffix);
    StrLessIrreflexive(JsonSuffix);
  }

  // ---------------------------------------------------------------------------
  // Reports
  // ---------------------------------------------------------------------------

  /** A saved report: the processor's daily report with the collection date and the two article counts. */
  datatype AgentReport = AgentReport(
    collectionDate: string, summary: string, totalCount: nat,
    rawArticlesCount: nat, processedArticlesCount: nat,
    categoryStats: map<string, nat>, importanceStats: map<string, nat>,
    topStories: seq<ProcessedNews>, allNews: seq<ProcessedNews>, generatedTime: string)

  /** A top story in the simplified report. */
  datatype StoryBrief = StoryBrief(title: string, source: string, summary: string, originalLink: string, importance: string)

  /** The simplified report: titles and summaries only. */
  datatype BriefReport = BriefReport(
    collectionDate: string, summary: string, totalCount: nat, topStories: seq<StoryBrief>, generatedTime: string)

  /** A file's content once parsed. */
  datatype Document = FullReport(report: AgentReport) | SimplifiedReport(brief: BriefReport) | Unreadable

  /** The counts of a report agree with its lists and tables. */
  ghost predicate Consistent(r: AgentReport)
  {
    && r.totalCount == |r.allNews| == r.processedArticlesCount <= r.rawArticlesCount
    && Total(r.categoryStats) == r.totalCount && Total(r.importanceStats) == r.totalCount
    && |r.topStories| <= 5 && (forall i :: 0 <= i < |r.topStories| ==> r.topStories[i] in r.allNews)
  }

  const NoNewsSuffix: string := " 暂无AI相关新闻"

  /** `_create_empty_report`: the date, a fixed summary, zero counts and empty tables and lists. */
  function EmptyReport(d: Date, now: string): (r: AgentReport)
    requires Valid(d)
    ensures r.collectionDate == Iso(d) && r.summary == Iso(d) + NoNewsSuffix && r.generatedTime == now
    ensures r.totalCount == 0 && r.rawArticlesCount == 0 && r.processedArticlesCount == 0
    ensures r.categoryStats == map[] && r.importanceStats == map[] && r.topStories == [] && r.allNews == []
  {
    AgentReport(Iso(d), Iso(d) + NoNewsSuffix, 0, 0, 0, map[], map[], [], [], now)
  }

  /** The report of a day with processed news: `generate_daily_report` and the three keys added to it. */
  function CollectedReport(d: Date, raw: nat, news: seq<ProcessedNews>, aiSummary: Option<string>, now: string): (r: AgentReport)
    requires Valid(d)
  {
    var categoryStats := CountMap(CategoriesOf(news));
    var importanceStats := CountMap(ImportancesOf(news));
    AgentReport(Iso(d),
      if aiSummary.Some? then Strip(aiSummary.value) else FallbackDailySummary(|news|, categoryStats, importanceStats),
      |news|, raw, |news|, categoryStats, importanceStats, TopStories(news), news, now)
  }

  /** Both kinds of report the run returns are consistent. */
  lemma ReportsConsistent(d: Date, raw: nat, news: seq<ProcessedNews>, aiSummary: Option<string>, now: string)
    requires Valid(d) && |news| <= raw
    ensures Consistent(EmptyReport(d, now))
    ensures Consistent(CollectedReport(d, raw, news, aiSummary, now))
  {
    DailyReportTotals(news);
    var r := CollectedReport(d, raw, news, aiSummary, now);
    forall i | 0 <= i < |r.topStories| ensures r.topStories[i] in r.allNews {
      assert r.topStories[i] in news;
    }
  }

  function Brief(s: ProcessedNews): (b: StoryBrief)
  {
    StoryBrief(s.title, s.source, s.summary, s.originalLink, s.importance)
  }

  /** The simplified projection in `_save_results`. */
  function Simplify(r: AgentReport): (b: BriefReport)
    ensures b.collectionDate == r.collectionDate && b.summary == r.summary
    ensures b.totalCount == r.totalCount && b.generatedTime == r.generatedTime
    ensures |b.topStories| == |r.topStories|
    ensures forall i :: 0 <= i < |b.topStories| ==>
      var s, t := r.topStories[i], b.topStories[i];
      t.title == s.title && t.source == s.source && t.summary == s.summary
      && t.originalLink == s.originalLink && t.importance == s.importance
  {
    BriefReport(r.collectionDate, r.summary, r.totalCount,
      seq(|r.topStories|, i requires 0 <= i < |r.topStories| => Brief(r.topStories[i])), r.generatedTime)
  }

  /** The simplified report keeps what it shows: reports that agree on those fields simplify alike. */
  lemma SimplifyKeepsShownFields(r1: AgentReport, r2: AgentReport)
    requires r1.collectionDate == r2.collectionDate && r1.summary == r2.summary
    requires r1.totalCount == r2.totalCount && r1.generatedTime == r2.generatedTime
    requires |r1.topStories| == |r2.topStories|
    requires forall i :: 0 <= i < |r1.topStories| ==> Brief(r1.topStories[i]) == Brief(r2.topStories[i])
    ensures Simplify(r1) == Simplify(r2)
  {
    var b1, b2 := Simplify(r1).topStories, Simplify(r2).topStories;
    assert forall i :: 0 <= i < |b1| ==> b1[i] == Brief(r1.topStories[i]) && b2[i] == Brief(r2.topStories[i]);
    assert b1 == b2;
  }

  // ---------------------------------------------------------------------------
  // Progress of run_daily_collection
  // ---------------------------------------------------------------------------

  /** One call of the progress callback. */
  datatype Step = Step(progress: int, message: string)

  const FetchingStep: Step := Step(15, "抓取RSS文章...")
  const NoArticlesStep: Step := Step(100, "完成，但未抓取到文章")
  const NoneProcessedStep: Step := Step(100, "完成，但没有文章通过AI处理")
  const ReportingStep: Step := Step(75, "生成每日报告...")
  const SavingStep: Step := Step(90, "保存结果...")

  function FetchedStep(n: nat): (s: Step)
  {
    Step(40, "抓取到" + NatToString(n) + "篇文章，开始AI处理...")
  }

  /** What `process_articles` reports before processing article `i` of `n`. */
  function ArticleStep(i: nat, n: nat, title: string): (s: Step)
    requires i < n
  {
    Step(ArticleProgress(i, n), "AI处理文章 " + NatToString(i + 1) + "/" + NatToString(n) + ": " + Take(title, 30) + "...")
  }

  function DoneStep(n: nat): (s: Step)
  {
    Step(100, "完成！处理了" + NatToString(n) + "篇新闻")
  }

  function FailedStep(error: string): (s: Step)
  {
    Step(0, "处理失败: " + error)
  }

  function ArticleSteps(articles: seq<RssArticle>): (r: seq<Step>)
  {
    seq(|articles|, i requires 0 <= i < |articles| => ArticleStep(i, |articles|, articles[i].title))
  }

  /**
   * The callbacks of one run with a callback, given the fetched articles, the
   * number processed and whether saving raised.
   */
  function CollectionSteps(articles: seq<RssArticle>, processed: nat, saveError: Option<string>): (r: seq<Step>)
  {
    if articles == [] then [FetchingStep, NoArticlesStep]
    else
      [FetchingStep, FetchedStep(|articles|)] + ArticleSteps(articles)
      + (if processed == 0 then [NoneProcessedStep] else ReportSteps(processed, saveError))
  }

  /** The callbacks after processing, when some news was processed. */
  function ReportSteps(processed: nat, saveError: Option<string>): (r: seq<Step>)
  {
    [ReportingStep, SavingStep, if saveError.Some? then FailedStep(saveError.value) else DoneStep(processed)]
  }

  /**
   * The progress of a run starts at 15 and never goes down; a run that returns
   * a report ends at 100; a run whose save raised ends at 0 after reaching 90.
   */
  lemma CollectionProgress(articles: seq<RssArticle>, processed: nat, saveError: Option<string>)
    ensures var r := CollectionSteps(articles, processed, saveError);
      && |r| >= 2 && r[0] == FetchingStep
      && (forall i :: 0 <= i < |r| ==> 0 <= r[i].progress <= 100)
      && (forall i, j :: 0 <= i <= j < |r| - 1 ==> r[i].progress <= r[j].progress)
      && (articles == [] || processed == 0 || saveError.None? ==>
            r[|r| - 1].progress == 100 && forall i :: 0 <= i < |r| ==> r[i].progress <= r[|r| - 1].progress)
      && (articles != [] && processed > 0 && saveError.Some? ==>
            r[|r| - 1] == FailedStep(saveError.value) && r[|r| - 2] == SavingStep)
  {
    var r := CollectionSteps(articles, processed, saveError);
    if articles != [] {
      var n := |articles|;
      var a := ArticleSteps(articles);
      var head := [FetchingStep, FetchedStep(n)];
      var tail := if processed == 0 then [NoneProcessedStep] else ReportSteps(processed, saveError);
      assert r == head + a + tail;
      assert forall i :: 0 <= i < n ==> a[i].progress == ArticleProgress(i, n);
      forall i, j | 0 <= i <= j < |r| - 1 ensures r[i].progress <= r[j].progress {
        if 2 <= i && j < 2 + n {
          ArticleProgressMonotone(i - 2, j - 2, n);
        }
      }
    }
  }

  /** The outcome of processing each article in turn. */
  function Outcomes(articles: seq<RssArticle>, analyse: RssArticle -> Option<ProcessedNews>): (r: seq<Option<ProcessedNews>>)
    ensures |r| == |articles|
  {
    seq(|articles|, i requires 0 <= i < |articles| => analyse(articles[i]))
  }

  /** The day a run collects: the given date, or today. */
  function TargetDay(target: Option<Date>, today: Date): (d: Date)
    ensures target.Some? ==> d == target.value
    ensures target.None? ==> d == today
  {
    if target.Some? then target.value else today
  }

  // ---------------------------------------------------------------------------
  // The agent and its output directory
  // ---------------------------------------------------------------------------

  /** The identity key for sorting strings themselves. */
  function Itself(s: string): (r: string)
    ensures r == s
  {
    s
  }

  /** The date parts of the report names, in listing order. */
  function ReportDates(names: seq<string>): (r: seq<string>)
    ensures forall x :: x in r <==> exists k :: 0 <= k < |names| && IsReportName(names[k]) && x == DatePart(names[k])
  {
    if names == [] then []
    else
      var last := names[|names| - 1];
      var prev := names[..|names| - 1];
      assert forall k :: 0 <= k < |prev| ==> prev[k] == names[k];
      ReportDates(prev) + (if IsReportName(last) then [DatePart(last)] else [])
  }

  /** The greatest report name, as `sorted(report_files)[-1]` picks it. */
  function LatestName(names: seq<string>): (r: Option<string>)
    ensures r.None? <==> forall k :: 0 <= k < |names| ==> !IsReportName(names[k])
    ensures r.Some? ==> r.value in names && IsReportName(r.value)
    ensures r.Some? ==> forall k :: 0 <= k < |names| && IsReportName(names[k]) ==> !StrLess(r.value, names[k])
  {
    if names == [] then None
    else
      var last := names[|names| - 1];
      var prev := names[..|names| - 1];
      assert forall k :: 0 <= k < |prev| ==> prev[k] == names[k];
      var p := LatestName(prev);
      if IsReportName(last) && (p.None? || StrLess(p.value, last)) then
        assert p.Some? ==> forall k :: 0 <= k < |prev| && IsReportName(prev[k]) ==> !StrLess(last, prev[k]) by {
          if p.Some? {
            forall k | 0 <= k < |prev| && IsReportName(prev[k]) ensures !StrLess(last, prev[k]) {
              StrLessAsymmetric(p.value, last);
              StrNotLessTransitive(prev[k], p.value, last);
            }
          }
        }
        StrLessIrreflexive(last);
        Some(last)
      else
        assert p.Some? && IsReportName(last) ==> !StrLess(p.value, last);
        p
  }

  /** A read of a file: absent and unreadable files give None. */
  function Read(docs: map<string, Document>, name: string): (r: Option<Document>)
    ensures r.Some? <==> name in docs && !docs[name].Unreadable?
    ensures r.Some? ==> r.value == docs[name]
  {
    if name in docs && !docs[name].Unreadable? then Some(docs[name]) else None
  }

  class NewsAgent {
    /** The output directory's file names, in the order the file system lists them. */
    var names: seq<string>
    /** Each file's content. */
    var docs: map<string, Document>

    ghost predicate Valid()
      reads this
    {
      (forall i, j :: 0 <= i < j < |names| ==> names[i] != names[j])
      && (forall n :: n in docs <==> n in names)
    }

    /** `NewsAgent(output_dir)`: the directory keeps what it holds. */
    constructor (names0: seq<string>, docs0: map<string, Document>)
      requires forall i, j :: 0 <= i < j < |names0| ==> names0[i] != names0[j]
      requires forall n :: n in docs0 <==> n in names0
      ensures Valid() && names == names0 && docs == docs0
    {
      names, docs := names0, docs0;
    }

    /** Writing a file: a new name is listed last, an existing one keeps its place. */
    method Write(name: string, doc: Document)
      requires Valid()
      modifies this
      ensures Valid()
      ensures docs == old(docs)[name := doc]
      ensures name in old(docs) ==> names == old(names)
      ensures name !in old(docs) ==> names == old(names) + [name]
    {
      if name !in docs {
        names := names + [name];
      }
      docs := docs[name := doc];
    }

    /** `_save_results`: the full report and its simplified projection, each in its own file. */
    method SaveResults(report: AgentReport, d: Date)
      requires Valid() && Dates.Valid(d)
      modifies this
      ensures Valid()
      ensures docs == old(docs)[ReportFile(d) := FullReport(report)][SimplifiedFile(d) := SimplifiedReport(Simplify(report))]
      ensures ReportByDate(d) == Some(FullReport(report))
    {
      ReportFileNames(d);
      Write(ReportFile(d), FullReport(report));
      Write(SimplifiedFile(d), SimplifiedReport(Simplify(report)));
    }

    /** `get_report_by_date`. */
    function ReportByDate(d: Date): (r: Option<Document>)
      requires Dates.Valid(d)
      reads this
    {
      Read(docs, ReportFile(d))
    }

    /** `get_latest_report`: the content of the greatest report name; None when there is none or it cannot be read. */
    function LatestReport(): (r: Option<Document>)
      reads this
      ensures LatestName(names).None? ==> r.None?
      ensures LatestName(names).Some? ==> r == Read(docs, LatestName(names).value)
    {
      match LatestName(names) {
        case None => None
        case Some(name) => Read(docs, name)
      }
    }

    /** `list_available_reports`: the date part of every report name, sorted. */
    method ListAvailableReports() returns (dates: seq<string>)
      ensures dates == StrSort(ReportDates(names), Itself, false)
    {
      var found: seq<string> := [];
      var i := 0;
      while i < |names|
        invariant 0 <= i <= |names|
        invariant found == ReportDates(names[..i])
      {
        assert names[..i + 1][..i] == names[..i];
        if IsReportName(names[i]) {
          found := found + [DatePart(names[i])];
        }
        i := i + 1;
      }
      assert names[..i] == names;
      dates := StrSort(found, Itself, false);
    }

    /**
     * `run_daily_collection`. `feeds` are what the sources' feeds yield,
     * `analyse` what processing an article gives, `aiSummary` the model's
     * daily summary, `now` the generation time, and `saveError` the error
     * writing the report raises, if any. The result is the report returned or
     * the error re-raised.
     */
    method RunDailyCollection(target: Option<Date>, today: Date, sources: seq<SourceConfig>,
        feeds: seq<Result<seq<Entry>>>, analyse: RssArticle -> Option<ProcessedNews>,
        aiSummary: Option<string>, now: string, saveError: Option<string>, hasCallback: bool)
      returns (steps: seq<Step>, result: Result<AgentReport>)
      requires Valid() && Dates.Valid(today) && (target.Some? ==> Dates.Valid(target.value)) && |feeds| == |sources|
      modifies this
      ensures Valid()
      ensures
        var d := TargetDay(target, today);
        var articles := Collected(sources, feeds, Ordinal(d));
        var news := Succeeded(Outcomes(articles, analyse));
        && steps == (if hasCallback then CollectionSteps(articles, |news|, saveError) else [])
        && (articles == [] || news == [] ==> result == Ok(EmptyReport(d, now)) && docs == old(docs) && names == old(names))
        && (articles != [] && news != [] && saveError.Some? ==>
              result == Err(saveError.value) && docs == old(docs) && names == old(names))
        && (articles != [] && news != [] && saveError.None? ==>
              var report := CollectedReport(d, |articles|, news, aiSummary, now);
              && result == Ok(report)
              && docs == old(docs)[ReportFile(d) := FullReport(report)][SimplifiedFile(d) := SimplifiedReport(Simplify(report))])
    {
      var d := TargetDay(target, today);
      var articles := FetchAllSources(sources, feeds, Ordinal(d));
      steps, result := ProcessAndReport(d, articles, analyse, aiSummary, now, saveError, hasCallback);
    }

    /** `run_daily_collection` once the articles are fetched. */
    method ProcessAndReport(d: Date, articles: seq<RssArticle>, analyse: RssArticle -> Option<ProcessedNews>,
        aiSummary: Option<string>, now: string, saveError: Option<string>, hasCallback: bool)
      returns (steps: seq<Step>, result: Result<AgentReport>)
      requires Valid() && Dates.Valid(d)
      modifies this
      ensures Valid()
      ensures
        var news := Succeeded(Outcomes(articles, analyse));
        && steps == (if hasCallback then CollectionSteps(articles, |news|, saveError) else [])
        && (articles == [] || news == [] ==> result == Ok(EmptyReport(d, now)) && docs == old(docs) && names == old(names))
        && (articles != [] && news != [] && saveError.Some? ==>
              result == Err(saveError.value) && docs == old(docs) && names == old(names))
        && (articles != [] && news != [] && saveError.None? ==>
              var report := CollectedReport(d, |articles|, news, aiSummary, now);
              && result == Ok(report)
              && docs == old(docs)[ReportFile(d) := FullReport(report)][SimplifiedFile(d) := SimplifiedReport(Simplify(report))])
    {
      if articles == [] {
        steps := if hasCallback then [FetchingStep, NoArticlesStep] else [];
        return steps, Ok(EmptyReport(d, now));
      }
      var news, reports := ProcessArticles(Outcomes(articles, analyse), hasCallback);
      steps := [];
      if hasCallback {
        ArticleReportsAreSteps(articles, reports);
        steps := [FetchingStep, FetchedStep(|articles|)] + ArticleReports(articles, reports);
      }
      if news == [] {
        steps := if hasCallback then steps + [NoneProcessedStep] else steps;
        return steps, Ok(EmptyReport(d, now));
      }
      var tail;
      tail, result := ReportAndSave(d, |articles|, news, aiSummary, now, saveError, hasCallback);
      steps := steps + tail;
    }

    /** The end of a run with processed news: generate the report, then save it unless writing raises. */
    method ReportAndSave(d: Date, raw: nat, news: seq<ProcessedNews>, aiSummary: Option<string>, now: string,
        saveError: Option<string>, hasCallback: bool)
      returns (steps: seq<Step>, result: Result<AgentReport>)
      requires Valid() && Dates.Valid(d) && news != []
      modifies this
      ensures Valid()
      ensures steps == (if hasCallback then ReportSteps(|news|, saveError) else [])
      ensures saveError.Some? ==> result == Err(saveError.value) && docs == old(docs) && names == old(names)
      ensures saveError.None? ==>
        var report := CollectedReport(d, raw, news, aiSummary, now);
        && result == Ok(report)
        && docs == old(docs)[ReportFile(d) := FullReport(report)][SimplifiedFile(d) := SimplifiedReport(Simplify(report))]
    {
      var daily := GenerateDailyReport(news, aiSummary);
      var report := AgentReport(Iso(d), daily.summary, daily.totalCount, raw, |news|,
        daily.categoryStats, daily.importanceStats, daily.topStories, news, now);
      assert report == CollectedReport(d, raw, news, aiSummary, now);
      if saveError.Some? {
        steps := if hasCallback then [ReportingStep, SavingStep, FailedStep(saveError.value)] else [];
        return steps, Err(saveError.value);
      }
      SaveResults(report, d);
      steps := if hasCallback then [ReportingStep, SavingStep, DoneStep(|news|)] else [];
      result := Ok(report);
    }
  }

  /** The callbacks `process_articles` makes, from the progress values it computes. */
  function ArticleReports(articles: seq<RssArticle>, reports: seq<int>): (r: seq<Step>)
    requires |reports| == |articles|
  {
    seq(|reports|, i requires 0 <= i < |reports| =>
      Step(reports[i], "AI处理文章 " + NatToString(i + 1) + "/" + NatToString(|articles|) + ": " + Take(articles[i].title, 30) + "..."))
  }

  lemma ArticleReportsAreSteps(articles: seq<RssArticle>, reports: seq<int>)
    requires |reports| == |articles|
    requires forall i :: 0 <= i < |articles| ==> reports[i] == ArticleProgress(i, |articles|)
    ensures ArticleReports(articles, reports) == ArticleSteps(articles)
  {
  }

  /** Every report file for a date of the scheme shows up in the listing as that date's packed form, and the listing is sorted. */
  lemma ListedDates(names: seq<string>, d: Date)
    requires Valid(d) && ReportFile(d) in names
    ensures Packed(d) in StrSort(ReportDates(names), Itself, false)
    ensures StrSorted(StrSort(ReportDates(names), Itself, false), Itself, false)
  {
    ReportFileNames(d);
    var k :| 0 <= k < |names| && names[k] == ReportFile(d);
    assert Packed(d) in ReportDates(names);
    assert Packed(d) in multiset(ReportDates(names));
    StrSortSorted(ReportDates(names), Itself, false);
  }

  /** When every report file follows the scheme with four-digit years, the latest report is that of the latest date. */
  lemma LatestIsLatestDate(names: seq<string>, a: Date, b: Date)
    requires Valid(a) && Valid(b) && a.year >= 1000 && b.year >= 1000
    requires LatestName(names) == Some(ReportFile(a)) && ReportFile(b) in names
    ensures !Before(a, b)
  {
    ReportFileNames(b);
    ReportFileOrder(a, b);
  }
}
