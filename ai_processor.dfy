/**
 * The rule-based parts of the article processor (ai-news-agent/ai_processor.py):
 * content cleaning, the fallbacks used when the language model is unavailable,
 * the progress reported while processing, and the daily report. Replies of the
 * language model are inputs of the model.
 */
module AiProcessor {
  import opened Wrappers
  import opened Text
  import opened Counting
  import opened RssFetcher

  /** A processed news item; the processing time stamp is left out. */
  datatype ProcessedNews = ProcessedNews(
    title: string, source: string, sourceDescription: string, originalLink: string,
    summary: string, content: string, category: string, importance: string,
    keyPoints: seq<string>, tags: seq<string>, isTodayNews: bool)

  /** The category keys the processor knows. */
  const Categories: seq<string> := [
    "tech_breakthrough", "product_release", "industry_news", "policy_regulation",
    "research_progress", "application_case", "funding_acquisition", "other"]

  const ImportanceLevels: seq<string> := ["high", "medium", "low"]

  // ---------------------------------------------------------------------------
  // _clean_content
  // ---------------------------------------------------------------------------

  /** `re.sub(r'<!--.*?-->', '', s, flags=re.DOTALL)`: each comment up to the nearest `-->` is deleted. */
  function RemoveComments(s: string): (r: string)
    ensures |r| <= |s|
  {
    RemoveSpans(s, "<!--", "-->")
  }

  /** A position where `<[^>]+>` matches: a '<', then at least one character other than '>', then a '>'. */
  predicate TagAt(s: string)
  {
    |s| > 1 && s[0] == '<' && s[1] != '>' && '>' in s[1..]
  }

  /** `re.sub(r'<[^>]+>', '', s)`: each tag, from '<' to the first '>' after it, is deleted. */
  function RemoveTags(s: string): (r: string)
    ensures |r| <= |s|
    decreases |s|
  {
    if s == [] then []
    else if TagAt(s) then RemoveTags(s[IndexOf(s[1..], '>') + 2..])
    else [s[0]] + RemoveTags(s[1..])
  }

  /** Deleting tags only deletes characters. */
  lemma {:induction false} RemoveTagsChars(s: string, c: char)
    requires c in RemoveTags(s)
    ensures c in s
    decreases |s|
  {
    if TagAt(s) {
      var t := s[IndexOf(s[1..], '>') + 2..];
      RemoveTagsChars(t, c);
      assert forall x :: x in t ==> x in s;
    } else if RemoveTags(s)[0] != c {
      RemoveTagsChars(s[1..], c);
    }
  }

  /** No tag is left: every remaining '<' ends the text, is followed by '>', or has no '>' anywhere after it. */
  predicate NoTag(r: string)
  {
    forall i :: 0 <= i < |r| && r[i] == '<' ==> !TagAt(r[i..])
  }

  lemma {:induction false} RemoveTagsLeavesNoTag(s: string)
    ensures NoTag(RemoveTags(s))
    decreases |s|
  {
    if s == [] {
    } else if TagAt(s) {
      RemoveTagsLeavesNoTag(s[IndexOf(s[1..], '>') + 2..]);
    } else {
      var tail := RemoveTags(s[1..]);
      RemoveTagsLeavesNoTag(s[1..]);
      var r := [s[0]] + tail;
      forall i | 0 <= i < |r| && r[i] == '<' ensures !TagAt(r[i..]) {
        if i == 0 {
          if |s| > 1 && s[1] == '>' {
            assert !TagAt(s[1..]);
            assert tail[0] == '>';
          } else if |s| > 1 && tail != [] {
            assert '>' !in s[1..];
            if '>' in tail {
              RemoveTagsChars(s[1..], '>');
            }
            assert r[i..][1..] == tail;
          }
        } else {
          assert r[i..] == tail[i - 1..];
        }
      }
    }
  }

  /** Text without '<' has neither comments nor tags to remove. */
  lemma {:induction false} NoMarkupUnchanged(s: string)
    requires '<' !in s
    ensures RemoveComments(s) == s && RemoveTags(s) == s
    decreases |s|
  {
    if s != [] {
      NoMarkupUnchanged(s[1..]);
      assert s == [s[0]] + s[1..];
    }
    MissingCharNotContained(s, "<!--", '<');
    RemoveSpansAbsent(s, "<!--", "-->");
  }

  /** The entity table of `_clean_content`, in the order it is applied. */
  const Entities: seq<(string, string)> := [
    ("&amp;", "&"), ("&lt;", "<"), ("&gt;", ">"), ("&quot;", "\""),
    ("&#32;", " "), ("&nbsp;", " "), ("&hellip;", "...")]

  /** The text after the first `k` entity replacements. */
  function DecodeFirst(s: string, k: nat): (r: string)
    requires k <= |Entities|
  {
    if k == 0 then s
    else
      assert |Entities[k - 1].0| > 0;
      ReplaceAll(DecodeFirst(s, k - 1), Entities[k - 1].0, Entities[k - 1].1)
  }

  function Decode(s: string): (r: string)
  {
    DecodeFirst(s, |Entities|)
  }

  /** Decoding runs in table order, so an escaped entity is decoded twice. */
  lemma DecodeTwice()
    ensures Decode("&amp;lt;") == "<"
  {
    var s := "&amp;lt;";
    assert DecodeFirst(s, 1) == "&lt;" by {
      assert s[5..] == "lt;";
      MissingCharNotContained("lt;", "&amp;", '&');
      ReplaceAllAbsent("lt;", "&amp;", "&");
    }
    assert DecodeFirst(s, 2) == "<" by {
      assert "&lt;"[4..] == "";
    }
    DecodeRestKeeps(s, 2, "<");
  }

  /**
   * Tags are removed before entities are decoded, so an escaped tag survives
   * cleaning as a tag.
   */
  lemma EscapedTagSurvives()
    ensures Decode(RemoveTags(RemoveComments("&lt;b&gt;"))) == "<b>"
  {
    NoMarkupUnchanged("&lt;b&gt;");
    DecodeEscapedTag();
  }

  lemma DecodeEscapedTag()
    ensures Decode("&lt;b&gt;") == "<b>"
  {
    var s := "&lt;b&gt;";
    MissingCharNotContained(s, "&amp;", 'm');
    ReplaceAllAbsent(s, "&amp;", "&");
    assert DecodeFirst(s, 1) == s;
    ReplaceLtOnce();
    assert DecodeFirst(s, 2) == "<b&gt;";
    ReplaceGtOnce();
    assert DecodeFirst(s, 3) == "<b>";
    DecodeRestKeeps(s, 3, "<b>");
  }

  lemma ReplaceLtOnce()
    ensures ReplaceAll("&lt;b&gt;", "&lt;", "<") == "<b&gt;"
  {
    assert "&lt;b&gt;"[4..] == "b&gt;";
    MissingCharNotContained("b&gt;", "&lt;", 'l');
    ReplaceAllAbsent("b&gt;", "&lt;", "<");
  }

  lemma ReplaceGtOnce()
    ensures ReplaceAll("<b&gt;", "&gt;", ">") == "<b>"
  {
    assert "<b&gt;"[2..] == "&gt;";
    assert "&gt;"[4..] == "";
  }

  /** Once only characters no later entity can match remain, the remaining replacements change nothing. */
  lemma {:induction false} DecodeRestKeeps(s: string, k: nat, t: string)
    requires 1 <= k <= |Entities| && DecodeFirst(s, k) == t && '&' !in t
    ensures Decode(s) == t
    decreases |Entities| - k
  {
    if k < |Entities| {
      assert '&' in Entities[k].0;
      MissingCharNotContained(t, Entities[k].0, '&');
      ReplaceAllAbsent(t, Entities[k].0, Entities[k].1);
      DecodeRestKeeps(s, k + 1, t);
    }
  }

  /** `re.sub(r'\s+', ' ', s).strip()`. */
  function Normalize(s: string): (r: string)
  {
    Strip(CollapseSpace(s))
  }

  /** After normalizing, no white space is left at either end. */
  lemma NormalizeEnds(s: string)
    ensures var r := Normalize(s); r == [] || (r[0] != ' ' && r[|r| - 1] != ' ')
  {
    var i, j := TrimSlice(Python, CollapseSpace(s));
  }

  /** After normalizing, every white-space character is a single space between two others. */
  lemma NormalizeSingleSpaces(s: string)
    ensures var r := Normalize(s);
      (forall n :: 0 <= n < |r| && IsSpace(r[n]) ==> r[n] == ' ')
      && (forall n :: 0 <= n < |r| - 1 ==> !(r[n] == ' ' && r[n + 1] == ' '))
  {
    var c := CollapseSpace(s);
    var i, j := TrimSlice(Python, c);
    var r := Normalize(s);
    forall n | 0 <= n < |r| ensures r[n] == c[i + n] {
    }
  }

  /** Normalizing keeps every other character, in order. */
  lemma NormalizeKeepsVisible(s: string)
    ensures Visible(Normalize(s)) == Visible(s)
  {
    CollapseSpaceKeepsVisible(s);
    StripKeepsVisible(CollapseSpace(s));
  }

  /** A sentence the short-content fallback keeps: longer than 20 characters once stripped, with no "http". */
  predicate Meaningful(sentence: string)
  {
    |Strip(sentence)| > 20 && !Contains(sentence, "http")
  }

  /** The stripped meaningful sentences, in order. */
  function Kept(sentences: seq<string>): (r: seq<string>)
    ensures |r| <= |sentences|
  {
    if sentences == [] then []
    else
      var last := sentences[|sentences| - 1];
      Kept(sentences[..|sentences| - 1]) + (if Meaningful(last) then [Strip(last)] else [])
  }

  lemma {:induction false} KeptPrefix(sentences: seq<string>, i: nat)
    requires i <= |sentences|
    ensures Kept(sentences[..i]) <= Kept(sentences)
    decreases |sentences| - i
  {
    if i < |sentences| {
      KeptPrefix(sentences, i + 1);
      assert sentences[..i + 1][..i] == sentences[..i];
    } else {
      assert sentences[..i] == sentences;
    }
  }

  const ContentPlaceholder: string := "内容需要查看原文链接获取详细信息。"

  /** Text the cleaner treats as too short or link-heavy: under 50 characters or more than three "http". */
  predicate NeedsFallback(c: string)
  {
    |c| < 50 || Count(c, "http") > 3
  }

  /** The first three meaningful '.'-sentences joined by ". " and closed by ".", or the placeholder when there are none. */
  function SentenceFallback(c: string): (r: string)
  {
    var chosen := Take(Kept(Split(c, '.')), 3);
    if chosen != [] then Join(chosen, ". ") + "." else ContentPlaceholder
  }

  /** The sentence loop of the fallback: it stops at the third meaningful sentence. */
  method FirstMeaningful(sentences: seq<string>) returns (chosen: seq<string>)
    ensures chosen == Take(Kept(sentences), 3)
  {
    chosen := [];
    var i := 0;
    while i < |sentences|
      invariant 0 <= i <= |sentences|
      invariant chosen == Kept(sentences[..i])
      invariant |chosen| < 3
    {
      assert sentences[..i + 1][..i] == sentences[..i];
      if Meaningful(sentences[i]) {
        chosen := chosen + [Strip(sentences[i])];
      }
      if |chosen| >= 3 {
        KeptPrefix(sentences, i + 1);
        return;
      }
      i := i + 1;
    }
    assert sentences[..i] == sentences;
  }

  /** `_clean_content` as a function of its input. */
  function CleanContentSpec(s: string): (r: string)
    ensures s == "" ==> r == ""
    ensures |r| <= 1000
  {
    if s == "" then ""
    else
      var c := Normalize(Decode(RemoveTags(RemoveComments(s))));
      Take(if NeedsFallback(c) then SentenceFallback(c) else c, 1000)
  }

  /**
   * `_clean_content`: comments, then tags, are removed; the entities are
   * decoded in table order; white space is collapsed and trimmed; short or
   * link-heavy text is replaced by its meaningful sentences; at most 1000
   * characters are kept.
   */
  method CleanContent(content: string) returns (r: string)
    ensures r == CleanContentSpec(content)
  {
    if content == "" {
      return "";
    }
    var c := RemoveComments(content);
    c := RemoveTags(c);
    ghost var markup := c;
    var k := 0;
    while k < |Entities|
      invariant 0 <= k <= |Entities|
      invariant c == DecodeFirst(markup, k)
    {
      c := ReplaceAll(c, Entities[k].0, Entities[k].1);
      k := k + 1;
    }
    c := Normalize(c);
    if NeedsFallback(c) {
      var chosen := FirstMeaningful(Split(c, '.'));
      if chosen != [] {
        c := Join(chosen, ". ") + ".";
      } else {
        c := ContentPlaceholder;
      }
    }
    r := Take(c, 1000);
  }

  // ---------------------------------------------------------------------------
  // _fallback_analyze_content
  // ---------------------------------------------------------------------------

  /** A keyword group of the rule-based classifier and the category and importance it gives. */
  datatype KeywordGroup = KeywordGroup(words: seq<string>, category: string, importance: string)

  /** The groups in the order they are tried. */
  const KeywordGroups: seq<KeywordGroup> := [
    KeywordGroup(["breakthrough", "突破", "innovation", "创新"], "tech_breakthrough", "high"),
    KeywordGroup(["release", "发布", "launch", "推出"], "product_release", "medium"),
    KeywordGroup(["research", "研究", "paper", "论文"], "research_progress", "medium"),
    KeywordGroup(["policy", "政策", "regulation", "监管"], "policy_regulation", "high")]

  /** `any(word in title or word in content for word in words)`. */
  predicate Mentions(words: seq<string>, title: string, content: string)
  {
    exists i :: 0 <= i < |words| && (Contains(title, words[i]) || Contains(content, words[i]))
  }

  /** The category and importance `_fallback_analyze_content` picks, branch by branch. */
  function Classify(title: string, content: string): (r: (string, string))
    ensures r.0 in Categories && r.1 in ImportanceLevels
  {
    if Mentions(["breakthrough", "突破", "innovation", "创新"], title, content) then ("tech_breakthrough", "high")
    else if Mentions(["release", "发布", "launch", "推出"], title, content) then ("product_release", "medium")
    else if Mentions(["research", "研究", "paper", "论文"], title, content) then ("research_progress", "medium")
    else if Mentions(["policy", "政策", "regulation", "监管"], title, content) then ("policy_regulation", "high")
    else ("other", "medium")
  }

  /** The branches agree with the table: the first group mentioned decides, and ("other", "medium") when none is. */
  lemma ClassifyFirstMatch(title: string, content: string)
    ensures forall k :: 0 <= k < |KeywordGroups| && Mentions(KeywordGroups[k].words, title, content)
              && (forall j :: 0 <= j < k ==> !Mentions(KeywordGroups[j].words, title, content))
              ==> Classify(title, content) == (KeywordGroups[k].category, KeywordGroups[k].importance)
    ensures (forall k :: 0 <= k < |KeywordGroups| ==> !Mentions(KeywordGroups[k].words, title, content))
              ==> Classify(title, content) == ("other", "medium")
  {
    var g := KeywordGroups;
    assert g[0].words == ["breakthrough", "突破", "innovation", "创新"];
    assert g[1].words == ["release", "发布", "launch", "推出"];
    assert g[2].words == ["research", "研究", "paper", "论文"];
    assert g[3].words == ["policy", "政策", "regulation", "监管"];
    forall k | 0 <= k < |g| && Mentions(g[k].words, title, content)
        && (forall j :: 0 <= j < k ==> !Mentions(g[j].words, title, content))
      ensures Classify(title, content) == (g[k].category, g[k].importance)
    {
      if k >= 1 { assert !Mentions(g[0].words, title, content); }
      if k >= 2 { assert !Mentions(g[1].words, title, content); }
      if k >= 3 { assert !Mentions(g[2].words, title, content); }
    }
  }

  /** The additional tags: those whose condition holds, in this order, at most three. */
  function FallbackTags(title: string, content: string): (r: seq<string>)
    ensures |r| <= 3
  {
    var tags :=
      (if Contains(title, "ai") || Contains(content, "artificial intelligence") then ["人工智能"] else [])
      + (if Contains(content, "machine learning") || Contains(title, "ml") then ["机器学习"] else [])
      + (if Contains(content, "deep learning") then ["深度学习"] else [])
      + (if Contains(title, "llm") || Contains(content, "language model") then ["大语言模型"] else []);
    Take(tags, 3)
  }

  /** Each tag is present exactly when its condition holds, except that a fourth tag is dropped. */
  lemma FallbackTagsMembership(title: string, content: string)
    ensures var r := FallbackTags(title, content);
      ("人工智能" in r <==> Contains(title, "ai") || Contains(content, "artificial intelligence"))
      && ("机器学习" in r <==> Contains(content, "machine learning") || Contains(title, "ml"))
      && ("深度学习" in r <==> Contains(content, "deep learning"))
      && ("大语言模型" in r <==>
            ((Contains(title, "llm") || Contains(content, "language model"))
             && !((Contains(title, "ai") || Contains(content, "artificial intelligence"))
                  && (Contains(content, "machine learning") || Contains(title, "ml"))
                  && Contains(content, "deep learning"))))
  {
    var c1 := Contains(title, "ai") || Contains(content, "artificial intelligence");
    var c2 := Contains(content, "machine learning") || Contains(title, "ml");
    var c3 := Contains(content, "deep learning");
    var c4 := Contains(title, "llm") || Contains(content, "language model");
    var t1: seq<string> := if c1 then ["人工智能"] else [];
    var t2: seq<string> := if c2 then ["机器学习"] else [];
    var t3: seq<string> := if c3 then ["深度学习"] else [];
    var t4: seq<string> := if c4 then ["大语言模型"] else [];
    var tags := t1 + t2 + t3 + t4;
    var r := FallbackTags(title, content);
    assert r == Take(tags, 3);
    if c1 && c2 && c3 && c4 {
      assert r == ["人工智能", "机器学习", "深度学习"];
    } else {
      assert r == tags;
    }
  }

  /** The analysis record: fields the language model may leave out are optional. */
  datatype Analysis = Analysis(
    title: Option<string>, category: Option<string>, importance: Option<string>,
    additionalTags: Option<seq<string>>)

  /** `_fallback_analyze_content`: keywords are looked for in the lower-cased title and content. */
  function FallbackAnalyze(a: RssArticle): (r: Analysis)
    ensures r.title == Some(a.title)
    ensures r.category.Some? && r.category.value in Categories
    ensures r.importance.Some? && r.importance.value in ImportanceLevels
    ensures r.additionalTags.Some? && |r.additionalTags.value| <= 3
  {
    var title, content := Lower(a.title), Lower(a.content);
    var (category, importance) := Classify(title, content);
    Analysis(Some(a.title), Some(category), Some(importance), Some(FallbackTags(title, content)))
  }

  // ---------------------------------------------------------------------------
  // _fallback_generate_summary
  // ---------------------------------------------------------------------------

  /** The stripped '。'-sentences longer than 10 characters, in order. */
  function LongSentences(sentences: seq<string>): (r: seq<string>)
    ensures |r| <= |sentences|
    ensures forall i :: 0 <= i < |r| ==> |r[i]| > 10
  {
    if sentences == [] then []
    else
      var last := Strip(sentences[|sentences| - 1]);
      LongSentences(sentences[..|sentences| - 1]) + (if |last| > 10 then [last] else [])
  }

  function SummaryTemplate(title: string): (r: string)
  {
    "本文讨论了关于" + title + "的相关内容，详细信息请查看原文。"
  }

  /**
   * `_fallback_generate_summary`: a summary longer than 20 characters gives its
   * first 200; otherwise the first two long sentences of the cleaned content,
   * joined and closed by '。', at most 200 characters; otherwise the template.
   */
  function FallbackSummary(a: RssArticle): (r: string)
    ensures |a.summary| > 20 ==> r == a.summary[..Min(200, |a.summary|)]
    ensures r == SummaryTemplate(a.title) || |r| <= 200
    ensures |a.summary| <= 20 && CleanContentSpec(a.content) == "" ==> r == SummaryTemplate(a.title)
  {
    if |a.summary| > 20 then Take(a.summary, 200)
    else
      var content := CleanContentSpec(a.content);
      var long := LongSentences(Split(content, '。'));
      if content != "" && long != [] then Take(Join(Take(long, 2), "。") + "。", 200)
      else SummaryTemplate(a.title)
  }

  /**
   * With a short summary, the fallback is the first long sentence of the
   * cleaned content, or the first two joined by '。', closed by '。' and cut
   * to 200 characters; without a long sentence it is the template.
   */
  lemma FallbackSummaryFromContent(a: RssArticle)
    requires |a.summary| <= 20
    ensures var long := LongSentences(Split(CleanContentSpec(a.content), '。'));
      && (long == [] ==> FallbackSummary(a) == SummaryTemplate(a.title))
      && (|long| == 1 ==> FallbackSummary(a) == Take(long[0] + "。", 200))
      && (|long| >= 2 ==> FallbackSummary(a) == Take(long[0] + "。" + long[1] + "。", 200))
  {
    var content := CleanContentSpec(a.content);
    var long := LongSentences(Split(content, '。'));
    if content == "" {
      assert Split(content, '。') == [""];
      assert long == [];
    }
    if |long| >= 2 {
      assert Take(long, 2) == [long[0], long[1]];
      assert Join([long[1]], "。") == long[1];
    } else if |long| == 1 {
      assert Take(long, 2) == long;
    }
  }

  // ---------------------------------------------------------------------------
  // _extract_key_points and its fallback
  // ---------------------------------------------------------------------------

  const GenericKeyPoints: seq<string> := ["人工智能技术最新进展", "相关应用场景和价值分析", "对行业发展的潜在影响"]

  /** `_fallback_extract_key_points`: canned points chosen by keywords of the lower-cased title and content. */
  function FallbackKeyPoints(a: RssArticle): (r: seq<string>)
    ensures |r| == 3
    ensures var title, content := Lower(a.title), Lower(a.content);
      (!Contains(title, "jax") && !(Contains(title, "dataset") && Contains(content, "balance"))
      && !Contains(title, "router") && !Contains(content, "foundation model")
      && !Contains(title, "neurips") && !Contains(title, "aaai")) ==> r == GenericKeyPoints
  {
    var title, content := Lower(a.title), Lower(a.content);
    var points :=
      if Contains(title, "jax") then
        ["JAX深度学习框架发展现状分析", "与PyTorch等主流框架的竞争态势", "在Transformer时代的应用前景"]
      else if Contains(title, "dataset") && Contains(content, "balance") then
        ["机器学习数据集不平衡问题探讨", "SMOTE等传统方法的局限性分析", "新的数据平衡策略研究方向"]
      else if Contains(title, "router") || Contains(content, "foundation model") then
        ["基础模型路由器架构设计", "智能模型选择机制研究", "成本优化与质量平衡策略"]
      else if Contains(title, "neurips") then
        ["NeurIPS会议学术影响力分析", "机器学习领域发展趋势", "学术会议组织与参与讨论"]
      else if Contains(title, "aaai") then
        ["AAAI会议在AI领域的地位", "人工智能学术评价体系", "会议质量与影响力讨论"]
      else GenericKeyPoints;
    Take(points, 3)
  }

  /**
   * `_extract_key_points` after the language model replied: a reply that parses
   * as a list gives its first five entries, anything else the fallback.
   */
  function ExtractKeyPoints(parsed: Option<seq<string>>, a: RssArticle): (r: seq<string>)
    ensures parsed.Some? ==> |r| <= 5 && r <= parsed.value
    ensures parsed.Some? ==> |r| == Min(5, |parsed.value|)
    ensures parsed.None? ==> r == FallbackKeyPoints(a)
  {
    match parsed
    case Some(points) => Take(points, 5)
    case None => FallbackKeyPoints(a)
  }

  // ---------------------------------------------------------------------------
  // _process_single_article and process_articles
  // ---------------------------------------------------------------------------

  /**
   * `_process_single_article` once the analysis, summary and key points are
   * known: fields the analysis leaves out fall back to the article's title,
   * category "other", importance "medium" and no extra tags.
   */
  function ProcessSingleArticle(a: RssArticle, analysis: Analysis, summary: string, keyPoints: seq<string>): (r: ProcessedNews)
    ensures r.title == (if analysis.title.Some? then analysis.title.value else a.title)
    ensures r.category == (if analysis.category.Some? then analysis.category.value else "other")
    ensures r.importance == (if analysis.importance.Some? then analysis.importance.value else "medium")
    ensures a.tags <= r.tags
    ensures analysis.additionalTags.None? ==> r.tags == a.tags
    ensures r.source == a.source && r.originalLink == a.link && r.isTodayNews
    ensures |r.content| <= 1000 && (a.content == "" ==> r.content == "")
  {
    ProcessedNews(
      title := if analysis.title.Some? then analysis.title.value else a.title,
      source := a.source, sourceDescription := a.sourceDescription, originalLink := a.link,
      summary := summary, content := CleanContentSpec(a.content),
      category := if analysis.category.Some? then analysis.category.value else "other",
      importance := if analysis.importance.Some? then analysis.importance.value else "medium",
      keyPoints := keyPoints,
      tags := a.tags + (if analysis.additionalTags.Some? then analysis.additionalTags.value else []),
      isTodayNews := true)
  }

  /** A fallback-only analysis of an article always classifies it into a known category. */
  lemma FallbackProcessKnownCategory(a: RssArticle)
    ensures var r := ProcessSingleArticle(a, FallbackAnalyze(a), FallbackSummary(a), FallbackKeyPoints(a));
      r.title == a.title && r.category in Categories && r.importance in ImportanceLevels
      && |r.keyPoints| == 3 && |r.tags| <= |a.tags| + 3
  {
  }

  /** The progress reported before article `i` of `n`: `50 + int(25 * (i + 1) / n)`. */
  function ArticleProgress(i: nat, n: nat): (p: int)
    requires i < n
    ensures 50 <= p <= 75
  {
    50 + 25 * (i + 1) / n
  }

  lemma ArticleProgressMonotone(i: nat, j: nat, n: nat)
    requires i <= j < n
    ensures ArticleProgress(i, n) <= ArticleProgress(j, n)
  {
    MulDivMonotone(25 * (i + 1), 25 * (j + 1), n);
  }

  lemma ArticleProgressLast(n: nat)
    requires n > 0
    ensures ArticleProgress(n - 1, n) == 75
  {
    assert 25 * n / n == 25;
  }

  /** The articles whose processing produced a record, in order. */
  function Succeeded(outcomes: seq<Option<ProcessedNews>>): (r: seq<ProcessedNews>)
    ensures |r| <= |outcomes|
    ensures forall x :: x in r ==> Some(x) in outcomes
    ensures forall x :: Some(x) in outcomes ==> x in r
  {
    if outcomes == [] then []
    else
      var last := outcomes[|outcomes| - 1];
      assert outcomes == outcomes[..|outcomes| - 1] + [last];
      Succeeded(outcomes[..|outcomes| - 1]) + (if last.Some? then [last.value] else [])
  }

  /**
   * `process_articles`: `outcomes[i]` is what processing article i gave (None
   * when it failed or raised). With a callback, the progress before each
   * article is reported in turn.
   */
  method ProcessArticles(outcomes: seq<Option<ProcessedNews>>, hasCallback: bool)
    returns (processed: seq<ProcessedNews>, reports: seq<int>)
    ensures processed == Succeeded(outcomes)
    ensures hasCallback ==> (|reports| == |outcomes|
      && forall i :: 0 <= i < |outcomes| ==> reports[i] == ArticleProgress(i, |outcomes|))
    ensures !hasCallback ==> reports == []
  {
    processed, reports := [], [];
    var i := 0;
    while i < |outcomes|
      invariant 0 <= i <= |outcomes|
      invariant processed == Succeeded(outcomes[..i])
      invariant hasCallback ==> (|reports| == i
        && forall k :: 0 <= k < i ==> reports[k] == ArticleProgress(k, |outcomes|))
      invariant !hasCallback ==> reports == []
    {
      if hasCallback {
        reports := reports + [ArticleProgress(i, |outcomes|)];
      }
      assert outcomes[..i + 1][..i] == outcomes[..i];
      if outcomes[i].Some? {
        processed := processed + [outcomes[i].value];
      }
      i := i + 1;
    }
    assert outcomes[..i] == outcomes;
  }

  /** The reported progress values never go down. */
  lemma ProcessArticlesProgressSorted(reports: seq<int>, n: nat)
    requires |reports| == n && forall i :: 0 <= i < n ==> reports[i] == ArticleProgress(i, n)
    ensures forall i, j :: 0 <= i <= j < n ==> 50 <= reports[i] <= reports[j] <= 75
    ensures n > 0 ==> reports[n - 1] == 75
  {
    forall i, j | 0 <= i <= j < n ensures reports[i] <= reports[j] {
      ArticleProgressMonotone(i, j, n);
    }
    if n > 0 {
      ArticleProgressLast(n);
    }
  }

  // ---------------------------------------------------------------------------
  // generate_daily_report
  // ---------------------------------------------------------------------------

  /** The report; `allNews` is absent from the report of an empty day. The generation time is left out. */
  datatype DailyReport = DailyReport(
    summary: string, totalCount: nat, categoryStats: map<string, nat>,
    importanceStats: map<string, nat>, topStories: seq<ProcessedNews>,
    allNews: Option<seq<ProcessedNews>>)

  const EmptyDaySummary: string := "今日暂无AI相关重要新闻"

  /** The category of every item, in order. */
  function CategoriesOf(news: seq<ProcessedNews>): (r: seq<string>)
    ensures |r| == |news|
  {
    if news == [] then [] else CategoriesOf(news[..|news| - 1]) + [news[|news| - 1].category]
  }

  /** The importance of every item, in order. */
  function ImportancesOf(news: seq<ProcessedNews>): (r: seq<string>)
    ensures |r| == |news|
  {
    if news == [] then [] else ImportancesOf(news[..|news| - 1]) + [news[|news| - 1].importance]
  }

  /** The items with the given importance, in input order. */
  function WithImportance(news: seq<ProcessedNews>, level: string): (r: seq<ProcessedNews>)
    ensures |r| <= |news|
    ensures forall x :: x in r <==> x in news && x.importance == level
  {
    if news == [] then []
    else (if news[0].importance == level then [news[0]] else []) + WithImportance(news[1..], level)
  }

  /** Up to three high items followed by up to two medium ones. */
  function TopStories(news: seq<ProcessedNews>): (r: seq<ProcessedNews>)
    ensures |r| <= 5
    ensures forall i :: 0 <= i < |r| ==> r[i].importance in {"high", "medium"} && r[i] in news
  {
    Take(WithImportance(news, "high"), 3) + Take(WithImportance(news, "medium"), 2)
  }

  /**
   * The top stories are the first high items, at most three, then the first
   * medium items, at most two; every high (medium) item is among them when
   * there are at most three (two) of them.
   */
  lemma TopStoriesFacts(news: seq<ProcessedNews>)
    ensures var r, h, m := TopStories(news), WithImportance(news, "high"), WithImportance(news, "medium");
      && |r| == Min(3, |h|) + Min(2, |m|)
      && (forall i :: 0 <= i < Min(3, |h|) ==> r[i] == h[i] && r[i].importance == "high")
      && (forall i :: Min(3, |h|) <= i < |r| ==> r[i] == m[i - Min(3, |h|)] && r[i].importance == "medium")
      && (|h| <= 3 ==> forall x :: x in news && x.importance == "high" ==> x in r)
      && (|m| <= 2 ==> forall x :: x in news && x.importance == "medium" ==> x in r)
  {
    var h, m := WithImportance(news, "high"), WithImportance(news, "medium");
    var r := TopStories(news);
    var a, b := Take(h, 3), Take(m, 2);
    assert r == a + b;
    forall i | 0 <= i < |a| ensures r[i] == h[i] && r[i].importance == "high" {
      assert h[i] in h;
    }
    forall i | |a| <= i < |r| ensures r[i] == m[i - |a|] && r[i].importance == "medium" {
      assert m[i - |a|] in m;
    }
    if |h| <= 3 {
      assert a == h;
    }
    if |m| <= 2 {
      assert b == m;
    }
  }

  /** The summary used when the language model fails. */
  function FallbackDailySummary(total: nat, categoryStats: map<string, nat>, importanceStats: map<string, nat>): (r: string)
  {
    "今日共收集到" + NatToString(total) + "条AI相关资讯，涵盖" + NatToString(|categoryStats|)
      + "个主要领域，其中" + NatToString(Get(importanceStats, "high")) + "条为高重要性新闻。"
  }

  lemma CategoriesSnoc(news: seq<ProcessedNews>, i: nat)
    requires i < |news|
    ensures CategoriesOf(news[..i + 1]) == CategoriesOf(news[..i]) + [news[i].category]
    ensures ImportancesOf(news[..i + 1]) == ImportancesOf(news[..i]) + [news[i].importance]
  {
    assert news[..i + 1][..i] == news[..i];
  }

  /** The counting loop of `generate_daily_report`: both tables are filled in one pass. */
  method CountStats(news: seq<ProcessedNews>) returns (categoryStats: map<string, nat>, importanceStats: map<string, nat>)
    ensures categoryStats == CountMap(CategoriesOf(news))
    ensures importanceStats == CountMap(ImportancesOf(news))
  {
    categoryStats, importanceStats := map[], map[];
    var i := 0;
    while i < |news|
      invariant 0 <= i <= |news|
      invariant categoryStats == CountMap(CategoriesOf(news[..i]))
      invariant importanceStats == CountMap(ImportancesOf(news[..i]))
    {
      var n := news[i];
      CategoriesSnoc(news, i);
      CountMapSnoc(CategoriesOf(news[..i]), n.category);
      CountMapSnoc(ImportancesOf(news[..i]), n.importance);
      categoryStats := categoryStats[n.category := Get(categoryStats, n.category) + 1];
      importanceStats := importanceStats[n.importance := Get(importanceStats, n.importance) + 1];
      i := i + 1;
    }
    assert news[..i] == news;
  }

  /**
   * `generate_daily_report`; `aiSummary` is the language model's reply, None
   * when the call failed.
   */
  method GenerateDailyReport(news: seq<ProcessedNews>, aiSummary: Option<string>) returns (r: DailyReport)
    ensures news == [] ==> r == DailyReport(EmptyDaySummary, 0, map[], map[], [], None)
    ensures news != [] ==>
      && r.totalCount == |news|
      && r.categoryStats == CountMap(CategoriesOf(news))
      && r.importanceStats == CountMap(ImportancesOf(news))
      && r.topStories == TopStories(news)
      && r.allNews == Some(news)
      && r.summary == (if aiSummary.Some? then Strip(aiSummary.value)
                       else FallbackDailySummary(|news|, r.categoryStats, r.importanceStats))
  {
    if news == [] {
      return DailyReport(EmptyDaySummary, 0, map[], map[], [], None);
    }
    var categoryStats, importanceStats := CountStats(news);
    var top := TopStories(news);
    top := Take(top, 5);
    var summary := if aiSummary.Some? then Strip(aiSummary.value)
                   else FallbackDailySummary(|news|, categoryStats, importanceStats);
    r := DailyReport(summary, |news|, categoryStats, importanceStats, top, Some(news));
  }

  /** Each table of a non-empty report sums to the number of items, and the cap of five on top stories never cuts. */
  lemma DailyReportTotals(news: seq<ProcessedNews>)
    ensures Total(CountMap(CategoriesOf(news))) == |news|
    ensures Total(CountMap(ImportancesOf(news))) == |news|
    ensures Take(TopStories(news), 5) == TopStories(news)
  {
    TotalCountMap(CategoriesOf(news));
    TotalCountMap(ImportancesOf(news));
  }
}
