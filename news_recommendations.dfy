/**
 * The recommendations page (frontend/src/components/NewsRecommendations.tsx):
 * from one page of recent news it picks the first five important items, the
 * first three items of every category, and the first six items of the last
 * 24 hours, and shows the importance counts of the statistics reply.
 *
 * Times are epoch milliseconds; an item whose timestamp `new Date` cannot
 * parse has no time (None) and, its date being invalid, is never recent.
 */
module NewsRecommendations {
  import opened Wrappers

  /** The fields of a news item the page reads. */
  datatype Item = Item(id: nat, title: string, category: string, importance: string, timestamp: Option<int>)

  /** The keys of `CATEGORY_LABELS`, in the order `Object.keys` lists them. */
  const CategoryKeys: seq<string> := ["tech_breakthrough", "product_release", "industry_news", "policy_regulation",
                                      "research_progress", "application_case", "other"]

  const DayMs: int := 24 * 60 * 60 * 1000

  // ---------------------------------------------------------------------------
  // The first matching items
  // ---------------------------------------------------------------------------

  /** `items.filter(p).slice(0, n)`. */
  function FirstMatching(items: seq<Item>, p: Item -> bool, n: nat): (r: seq<Item>)
    ensures |r| <= n
  {
    Take(Filter(items, p), n)
  }

  /** Filtering a concatenation filters each part. */
  lemma {:induction false} FilterAppend<T>(a: seq<T>, b: seq<T>, p: T -> bool)
    ensures Filter(a + b, p) == Filter(a, p) + Filter(b, p)
  {
    if a == [] {
      assert a + b == b;
    } else {
      var head := if p(a[0]) then [a[0]] else [];
      assert (a + b)[0] == a[0] && (a + b)[1..] == a[1..] + b;
      assert Filter(a + b, p) == head + Filter(a[1..] + b, p);
      FilterAppend(a[1..], b, p);
      assert Filter(a, p) == head + Filter(a[1..], p);
    }
  }

  /** Filtering one more item adds it when it matches. */
  lemma FilterSnoc<T>(s: seq<T>, k: nat, p: T -> bool)
    requires k < |s|
    ensures Filter(s[..k + 1], p) == Filter(s[..k], p) + (if p(s[k]) then [s[k]] else [])
  {
    assert s[..k + 1] == s[..k] + [s[k]];
    FilterAppend(s[..k], [s[k]], p);
    assert [s[k]][1..] == [];
  }

  /**
   * The first `n` matching items are exactly the matching items of some
   * prefix of the list, and that prefix stops short of the whole list only
   * once `n` items were found: the selection keeps the input order, skips no
   * matching item before the last one it takes, and is short only when fewer
   * than `n` items match.
   */
  lemma {:induction false} FirstMatchingPrefix(items: seq<Item>, p: Item -> bool, n: nat)
    ensures var r := FirstMatching(items, p, n);
      exists k :: 0 <= k <= |items| && r == Filter(items[..k], p) && (k < |items| ==> |r| == n)
    decreases |items|
  {
    var r := FirstMatching(items, p, n);
    var f := Filter(items, p);
    if |f| <= n {
      assert items[..|items|] == items;
    } else {
      var m := |items| - 1;
      var init := items[..m];
      var g := Filter(init, p);
      FilterSnoc(items, m, p);
      assert items[..m + 1] == items;
      assert |g| >= n && f[..n] == g[..n];
      assert r == FirstMatching(init, p, n) && |r| == n;
      FirstMatchingPrefix(init, p, n);
      var k :| 0 <= k <= |init| && r == Filter(init[..k], p);
      assert init[..k] == items[..k];
    }
  }

  /** Every item picked matches and comes from the list; a short selection holds every matching item. */
  lemma FirstMatchingMembers(items: seq<Item>, p: Item -> bool, n: nat)
    ensures var r := FirstMatching(items, p, n);
      && (forall x :: x in r ==> x in items && p(x))
      && (|r| < n ==> forall x :: x in items && p(x) ==> x in r)
  {
    var r := FirstMatching(items, p, n);
    var f := Filter(items, p);
    assert forall x :: x in r ==> x in f;
    if |r| < n {
      assert r == f;
    }
  }

  // ---------------------------------------------------------------------------
  // The three selections
  // ---------------------------------------------------------------------------

  predicate IsHigh(x: Item)
  {
    x.importance == "high"
  }

  /** Newer than 24 hours before `now`: an invalid date compares false. */
  predicate IsRecent(x: Item, now: int)
  {
    x.timestamp.Some? && x.timestamp.value > now - DayMs
  }

  /** `trending_news`: the first five important items. */
  function Trending(items: seq<Item>): (r: seq<Item>)
    ensures |r| <= 5
  {
    FirstMatching(items, IsHigh, 5)
  }

  /** The first three items of one category. */
  function ForCategory(items: seq<Item>, category: string): (r: seq<Item>)
    ensures |r| <= 3
  {
    FirstMatching(items, (x: Item) => x.category == category, 3)
  }

  /** `recent_highlights`: the first six items of the last 24 hours. */
  function Recent(items: seq<Item>, now: int): (r: seq<Item>)
    ensures |r| <= 6
  {
    FirstMatching(items, (x: Item) => IsRecent(x, now), 6)
  }

  /** The category table after the first keys of the `forEach`. */
  function CategoryTable(items: seq<Item>, keys: seq<string>): map<string, seq<Item>>
  {
    if keys == [] then map[]
    else CategoryTable(items, keys[..|keys| - 1])[keys[|keys| - 1] := ForCategory(items, keys[|keys| - 1])]
  }

  /** The table has an entry for exactly the keys given, each holding that category's first three items. */
  lemma {:induction false} CategoryTableFacts(items: seq<Item>, keys: seq<string>)
    ensures var t := CategoryTable(items, keys);
      && (forall c :: c in t <==> c in keys)
      && (forall c :: c in t ==> t[c] == ForCategory(items, c))
  {
    if keys != [] {
      var init := keys[..|keys| - 1];
      CategoryTableFacts(items, init);
      assert keys == init + [keys[|keys| - 1]];
    }
  }

  /** `Object.keys(CATEGORY_LABELS).forEach(...)`, filling `categoryRecommendations`. */
  method CategoryRecommendations(items: seq<Item>) returns (table: map<string, seq<Item>>)
    ensures table == CategoryTable(items, CategoryKeys)
  {
    table := map[];
    var i := 0;
    while i < |CategoryKeys|
      invariant 0 <= i <= |CategoryKeys|
      invariant table == CategoryTable(items, CategoryKeys[..i])
    {
      var category := CategoryKeys[i];
      assert CategoryKeys[..i + 1][..i] == CategoryKeys[..i];
      table := table[category := Take(Filter(items, (x: Item) => x.category == category), 3)];
      i := i + 1;
    }
    assert CategoryKeys[..i] == CategoryKeys;
  }

  /** What `setRecommendations` receives. */
  datatype Recommendations = Recommendations(
    trending: seq<Item>, byCategory: map<string, seq<Item>>, importanceStats: map<string, int>, recent: seq<Item>)

  /** `response.results || []`. */
  function AllNews(results: Option<seq<Item>>): (r: seq<Item>)
    ensures results.None? ==> r == []
    ensures results.Some? ==> r == results.value
  {
    if results.Some? then results.value else []
  }

  /** The recommendations made from the news reply's results and the statistics reply's `importance_stats`. */
  function Recommend(results: Option<seq<Item>>, importanceStats: Option<map<string, int>>, now: int): Recommendations
  {
    var all := AllNews(results);
    Recommendations(Trending(all), CategoryTable(all, CategoryKeys), if importanceStats.Some? then importanceStats.value else map[],
                    Recent(all, now))
  }

  /** `loadRecommendations` once both replies are in. */
  method BuildRecommendations(results: Option<seq<Item>>, importanceStats: Option<map<string, int>>, now: int)
    returns (r: Recommendations)
    ensures r == Recommend(results, importanceStats, now)
  {
    var allNews := if results.Some? then results.value else [];
    var trendingNews := Take(Filter(allNews, IsHigh), 5);
    var categoryRecommendations := CategoryRecommendations(allNews);
    var recentHighlights := Take(Filter(allNews, (x: Item) => IsRecent(x, now)), 6);
    r := Recommendations(trendingNews, categoryRecommendations,
                         if importanceStats.Some? then importanceStats.value else map[], recentHighlights);
  }

  /**
   * The recommendations, for any replies: at most five trending items, each
   * important and from the reply, and all of the important ones when fewer
   * than five; one list for every category key and no other, each at most
   * three items of that category from the reply; at most six recent items,
   * each of the last 24 hours; no statistics when the reply has none.
   */
  lemma RecommendFacts(results: Option<seq<Item>>, importanceStats: Option<map<string, int>>, now: int)
    ensures var r, all := Recommend(results, importanceStats, now), AllNews(results);
      && |r.trending| <= 5 && (forall x :: x in r.trending ==> x in all && x.importance == "high")
      && (|r.trending| < 5 ==> forall x :: x in all && x.importance == "high" ==> x in r.trending)
      && (forall c :: c in r.byCategory <==> c in CategoryKeys)
      && (forall c :: c in r.byCategory ==> |r.byCategory[c]| <= 3 && forall x :: x in r.byCategory[c] ==> x in all && x.category == c)
      && |r.recent| <= 6 && (forall x :: x in r.recent ==> x in all && x.timestamp.Some? && x.timestamp.value > now - DayMs)
      && (importanceStats.None? ==> r.importanceStats == map[])
  {
    var all := AllNews(results);
    FirstMatchingMembers(all, IsHigh, 5);
    FirstMatchingMembers(all, (x: Item) => IsRecent(x, now), 6);
    CategoryTableFacts(all, CategoryKeys);
    forall c | c in CategoryKeys
      ensures forall x :: x in ForCategory(all, c) ==> x in all && x.category == c
    {
      FirstMatchingMembers(all, (x: Item) => x.category == c, 3);
    }
  }

  /** `importance_stats.high || 0`: a missing (or zero) count shows 0. */
  function StatValue(stats: map<string, int>, key: string): (v: int)
    ensures key !in stats ==> v == 0
    ensures key in stats ==> v == stats[key]
  {
    if key in stats then stats[key] else 0
  }

  // ---------------------------------------------------------------------------
  // Colours and icons
  // ---------------------------------------------------------------------------

  /** `getImportanceColor`. */
  function ImportanceColor(importance: string): (c: string)
  {
    match importance
    case "high" => "red"
    case "medium" => "orange"
    case "low" => "green"
    case _ => "blue"
  }

  /** The three typed importances get three different colours, and only an untyped one is blue. */
  lemma ImportanceColors(a: string, b: string)
    ensures ImportanceColor(a) == "blue" <==> a !in ["high", "medium", "low"]
    ensures a in ["high", "medium", "low"] && b in ["high", "medium", "low"] && a != b ==> ImportanceColor(a) != ImportanceColor(b)
  {
  }

  datatype Glyph = Thunderbolt | Star | Book | Bulb | Trophy | Heart | Eye

  /** An icon and its colour. */
  datatype Icon = Icon(glyph: Glyph, color: string)

  const OtherIcon: Icon := Icon(Eye, "#666")

  /** `getCategoryIcon`: the icon of a category key, the `other` icon for any other text. */
  function CategoryIcon(category: string): (i: Icon)
  {
    match category
    case "tech_breakthrough" => Icon(Thunderbolt, "#722ed1")
    case "product_release" => Icon(Star, "#1890ff")
    case "industry_news" => Icon(Book, "#52c41a")
    case "policy_regulation" => Icon(Bulb, "#fa8c16")
    case "research_progress" => Icon(Trophy, "#eb2f96")
    case "application_case" => Icon(Heart, "#13c2c2")
    case _ => OtherIcon
  }

  /** Every category key has an icon of its own; a category outside the keys shares the `other` icon. */
  lemma CategoryIcons(a: string, b: string)
    ensures a in CategoryKeys && b in CategoryKeys && a != b ==> CategoryIcon(a) != CategoryIcon(b)
    ensures CategoryIcon(a) == OtherIcon <==> a !in CategoryKeys || a == "other"
  {
  }

  // ---------------------------------------------------------------------------
  // The page
  // ---------------------------------------------------------------------------

  const FirstCategory: string := "tech_breakthrough"

  class RecommendationsPage {
    var recommendations: Option<Recommendations>
    var loading: bool
    var selectedCategory: string
    /** The `page_size` and `days` of each news request sent. */
    var requests: seq<(nat, nat)>
    var errors: nat

    constructor ()
      ensures recommendations.None? && loading && selectedCategory == FirstCategory && requests == [] && errors == 0
    {
      recommendations, loading, selectedCategory, requests, errors := None, true, FirstCategory, [], 0;
    }

    /**
     * `loadRecommendations`: asks for 20 news of the last 7 days and the
     * statistics together; `replies` is the news reply's results and the
     * statistics reply's `importance_stats`, None when either call failed.
     */
    method LoadRecommendations(replies: Option<(Option<seq<Item>>, Option<map<string, int>>)>, now: int)
      modifies this
      ensures !loading && selectedCategory == old(selectedCategory)
      ensures requests == old(requests) + [(20, 7)]
      ensures errors == old(errors) + (if replies.None? then 1 else 0)
      ensures replies.None? ==> recommendations == old(recommendations)
      ensures replies.Some? ==> recommendations == Some(Recommend(replies.value.0, replies.value.1, now))
    {
      loading := true;
      requests := requests + [(20, 7)];
      if replies.None? {
        errors := errors + 1;
      } else {
        var r := BuildRecommendations(replies.value.0, replies.value.1, now);
        recommendations := Some(r);
      }
      loading := false;
    }

    /** A category button. */
    method SelectCategory(category: string)
      modifies this
      ensures selectedCategory == category
      ensures recommendations == old(recommendations) && loading == old(loading)
      ensures requests == old(requests) && errors == old(errors)
    {
      selectedCategory := category;
    }

    /** `category_recommendations[selectedCategory] || []`. */
    function Shown(): (r: seq<Item>)
      reads this
      requires recommendations.Some?
    {
      var t := recommendations.value.byCategory;
      if selectedCategory in t then t[selectedCategory] else []
    }
  }

  /** After a load, the list shown for the selected category is that category's first three items, or nothing for a text that is no key. */
  lemma ShownCategory(p: RecommendationsPage, results: Option<seq<Item>>, importanceStats: Option<map<string, int>>, now: int)
    requires p.recommendations == Some(Recommend(results, importanceStats, now))
    ensures p.selectedCategory in CategoryKeys ==> p.Shown() == ForCategory(AllNews(results), p.selectedCategory)
    ensures p.selectedCategory !in CategoryKeys ==> p.Shown() == []
  {
    CategoryTableFacts(AllNews(results), CategoryKeys);
  }
}
