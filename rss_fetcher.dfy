/**
 * Turning RSS feed entries into articles (ai-news-agent/rss_fetcher.py).
 * `feedparser` and `dateutil` are outside the model: an entry arrives with its
 * fields already read, and dates are day numbers.
 */
module RssFetcher {
  import opened Wrappers
  import opened Text
  import opened AgentConfig

  /** An article kept from a feed. */
  datatype RssArticle = RssArticle(
    title: string, summary: string, link: string, source: string, sourceDescription: string,
    publishedDate: Option<int>, content: string, tags: seq<string>)

  /** A date attribute of an entry: missing, present but unparsable, or a day number. */
  datatype DateField = Absent | Unparsable | Parsed(day: int)

  /** An entry's `content` attribute: missing or falsy, a list of items (each maybe lacking `value`), or some other value. */
  datatype EntryContent = NoContent | Items(values: seq<Option<string>>) | OtherContent(text: string)

  /** A feed entry as feedparser exposes it; `None` is an absent attribute. */
  datatype Entry = Entry(
    title: Option<string>, summary: Option<string>, link: Option<string>,
    published: DateField, updated: DateField, publishedParsed: DateField,
    content: EntryContent, tags: Option<seq<Option<string>>>)

  function Attr(a: Option<string>): (r: string)
  {
    if a.Some? then a.value else ""
  }

  function ParseDate(f: DateField): (r: Option<int>)
  {
    if f.Parsed? then Some(f.day) else None
  }

  /**
   * The publication date: `published` when the entry has it (an unparsable one
   * gives no date), otherwise `updated`, otherwise `published_parsed`.
   */
  function PublishedDate(e: Entry): (r: Option<int>)
    ensures e.published != Absent ==> r == ParseDate(e.published)
    ensures e.published == Absent && e.updated != Absent ==> r == ParseDate(e.updated)
    ensures e.published == Absent && e.updated == Absent ==> r == ParseDate(e.publishedParsed)
  {
    if e.published != Absent then ParseDate(e.published)
    else if e.updated != Absent then ParseDate(e.updated)
    else ParseDate(e.publishedParsed)
  }

  function Abs(x: int): (r: nat)
  {
    if x < 0 then -x else x
  }

  /** The article body: the first item's `value` (the summary if it has none), a non-list value, or the summary. */
  function EntryText(c: EntryContent, summary: string): (r: string)
  {
    match c
    case NoContent => summary
    case Items(vs) => if vs == [] then summary else if vs[0].Some? then vs[0].value else summary
    case OtherContent(t) => t
  }

  /** The non-empty tag terms, in order. */
  function Terms(tags: seq<Option<string>>): (r: seq<string>)
    ensures forall t :: t in r ==> t != "" && Some(t) in tags
    ensures forall i :: 0 <= i < |tags| && tags[i].Some? && tags[i].value != "" ==> tags[i].value in r
  {
    if tags == [] then []
    else (if tags[0].Some? && tags[0].value != "" then [tags[0].value] else []) + Terms(tags[1..])
  }

  /**
   * `_parse_entry`: the article an entry yields for `target`, or None when it is
   * rejected. An entry is kept exactly when its date is unknown or within three
   * days of the target in either direction, its stripped title is non-empty,
   * and its link is non-empty.
   */
  function ParseEntry(e: Entry, src: SourceConfig, target: int): (r: Option<RssArticle>)
    ensures r.Some? <==>
      (PublishedDate(e).None? || -3 <= PublishedDate(e).value - target <= 3)
      && Strip(Attr(e.title)) != "" && Attr(e.link) != ""
    ensures r.Some? ==>
      var a := r.value;
      a.title == Strip(Attr(e.title)) && a.link == Attr(e.link)
      && a.summary == Strip(Attr(e.summary)) && a.publishedDate == PublishedDate(e)
      && a.source == src.name && a.sourceDescription == src.description
      && a.content == EntryText(e.content, a.summary)
      && a.tags == (if e.tags.Some? then Terms(e.tags.value) else [])
  {
    var date := PublishedDate(e);
    if date.Some? && Abs(date.value - target) > 3 then None
    else
      var title := Strip(Attr(e.title));
      var summary := Strip(Attr(e.summary));
      var link := Attr(e.link);
      if title == "" || link == "" then None
      else Some(RssArticle(title, summary, link, src.name, src.description, date,
                           EntryText(e.content, summary), if e.tags.Some? then Terms(e.tags.value) else []))
  }

  /** The articles kept from `entries`, in order. */
  function Accepted(entries: seq<Entry>, src: SourceConfig, target: int): (r: seq<RssArticle>)
    ensures |r| <= |entries|
  {
    if entries == [] then []
    else
      var init := Accepted(entries[..|entries| - 1], src, target);
      match ParseEntry(entries[|entries| - 1], src, target)
      case None => init
      case Some(a) => init + [a]
  }

  /**
   * `_fetch_source`: at most `MaxArticlesPerSource` entries are examined, and
   * each kept one is appended in order; a feed that fails to load fails the call.
   */
  method FetchSource(src: SourceConfig, feed: Result<seq<Entry>>, target: int) returns (r: Result<seq<RssArticle>>)
    ensures feed.Err? ==> r == Err(feed.error)
    ensures feed.Ok? ==> r == Ok(Accepted(Take(feed.value, MaxArticlesPerSource), src, target))
  {
    if feed.Err? {
      return Err(feed.error);
    }
    var entries := Take(feed.value, MaxArticlesPerSource);
    var articles: seq<RssArticle> := [];
    var i := 0;
    while i < |entries|
      invariant 0 <= i <= |entries|
      invariant articles == Accepted(entries[..i], src, target)
    {
      assert entries[..i + 1][..i] == entries[..i];
      var parsed := ParseEntry(entries[i], src, target);
      if parsed.Some? {
        articles := articles + [parsed.value];
      }
      i := i + 1;
    }
    assert entries[..|entries|] == entries;
    return Ok(articles);
  }

  /** No feed contributes more than `MaxArticlesPerSource` articles. */
  lemma FetchSourceBound(feed: seq<Entry>, src: SourceConfig, target: int)
    ensures |Accepted(Take(feed, MaxArticlesPerSource), src, target)| <= MaxArticlesPerSource
  {
  }

  /** The articles of every feed that loaded, concatenated in source order. */
  function Collected(sources: seq<SourceConfig>, feeds: seq<Result<seq<Entry>>>, target: int): (r: seq<RssArticle>)
    requires |feeds| == |sources|
  {
    if sources == [] then []
    else
      var n := |sources| - 1;
      Collected(sources[..n], feeds[..n], target)
        + (if feeds[n].Ok? then Accepted(Take(feeds[n].value, MaxArticlesPerSource), sources[n], target) else [])
  }

  /**
   * `fetch_all_sources`: `feeds[i]` is what source `i`'s feed yields. A source
   * whose feed fails is skipped and the others are concatenated in order.
   */
  method FetchAllSources(sources: seq<SourceConfig>, feeds: seq<Result<seq<Entry>>>, target: int)
    returns (all: seq<RssArticle>)
    requires |feeds| == |sources|
    ensures all == Collected(sources, feeds, target)
  {
    all := [];
    var i := 0;
    while i < |sources|
      invariant 0 <= i <= |sources|
      invariant all == Collected(sources[..i], feeds[..i], target)
    {
      assert sources[..i + 1][..i] == sources[..i] && feeds[..i + 1][..i] == feeds[..i];
      var got := FetchSource(sources[i], feeds[i], target);
      if got.Ok? {
        all := all + got.value;
      }
      i := i + 1;
    }
    assert sources[..|sources|] == sources && feeds[..|feeds|] == feeds;
  }

  /** At most ten articles come from each source. */
  lemma {:induction false} CollectedBound(sources: seq<SourceConfig>, feeds: seq<Result<seq<Entry>>>, target: int)
    requires |feeds| == |sources|
    ensures |Collected(sources, feeds, target)| <= MaxArticlesPerSource * |sources|
  {
    if sources != [] {
      var n := |sources| - 1;
      CollectedBound(sources[..n], feeds[..n], target);
      if feeds[n].Ok? {
        FetchSourceBound(feeds[n].value, sources[n], target);
      }
    }
  }

  /** The first configured source with the given name. */
  method FindSource(name: string, sources: seq<SourceConfig>) returns (r: Option<SourceConfig>)
    ensures r.None? <==> forall i :: 0 <= i < |sources| ==> sources[i].name != name
    ensures r.Some? ==> exists i :: 0 <= i < |sources| && sources[i] == r.value && r.value.name == name
                                  && (forall j :: 0 <= j < i ==> sources[j].name != name)
  {
    var i := 0;
    while i < |sources|
      invariant 0 <= i <= |sources|
      invariant forall j :: 0 <= j < i ==> sources[j].name != name
    {
      if sources[i].name == name {
        return Some(sources[i]);
      }
      i := i + 1;
    }
    return None;
  }

  /**
   * `fetch_source_by_name`: an unknown name is an error (the source raises
   * `ValueError`); otherwise that one source is fetched.
   */
  method FetchSourceByName(name: string, sources: seq<SourceConfig>, feedOf: SourceConfig -> Result<seq<Entry>>, target: int)
    returns (r: Result<seq<RssArticle>>)
    ensures (forall i :: 0 <= i < |sources| ==> sources[i].name != name) ==> r == Err("未找到RSS源: " + name)
    ensures (exists i :: 0 <= i < |sources| && sources[i].name == name) ==>
      exists i :: 0 <= i < |sources| && sources[i].name == name && (forall j :: 0 <= j < i ==> sources[j].name != name)
                  && (feedOf(sources[i]).Ok? ==> r == Ok(Accepted(Take(feedOf(sources[i]).value, MaxArticlesPerSource), sources[i], target)))
                  && (feedOf(sources[i]).Err? ==> r.Err?)
  {
    var found := FindSource(name, sources);
    if found.None? {
      return Err("未找到RSS源: " + name);
    }
    r := FetchSource(found.value, feedOf(found.value), target);
  }
}
