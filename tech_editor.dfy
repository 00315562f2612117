/** The technology desk editor (app/perception_agent/tools/agent_8_tools.py):
    picks the best-scored Tech articles, proposes a headline from their most
    frequent tags, and builds the curated Technology section. */
module TechEditor {
  import opened Json
  import opened Text
  import opened Sorting
  import opened Counting
  import Synthesis

  // ---------------------------------------------------------------------
  // select_top_tech_articles

  predicate IsTech(a: Record) {
    Get(a, "section", Null) == Str("Tech")
  }

  /** `[a for a in articles if a.get("section") == "Tech"]` */
  function TechOnly(articles: seq<Record>): seq<Record> {
    if articles == [] then []
    else
      var a := articles[|articles| - 1];
      TechOnly(articles[..|articles| - 1]) + (if IsTech(a) then [a] else [])
  }

  /** The sort key: `relevance_score`, 0 when missing. */
  function TechKey(a: Record): int {
    IntField(a, "relevance_score", 0)
  }

  /** The Tech articles' scores compare as integers. */
  predicate TechComparable(articles: seq<Record>) {
    forall a :: a in articles && IsTech(a) ==> IntOrAbsent(a, "relevance_score")
  }

  /** `select_top_tech_articles`: the Tech articles, stably sorted by score,
      highest first, cut to `maxArticles`. */
  function SelectTopTechArticles(articles: seq<Record>, maxArticles: int): (r: seq<Record>)
    requires TechComparable(articles)
    ensures forall a :: a in r ==> a in articles && IsTech(a)
    ensures SortedDesc(r, TechKey)
  {
    TechOnlyMembers(articles);
    TakeSortedShape(TechOnly(articles), TechKey, maxArticles);
    PyTake(SortDesc(TechOnly(articles), TechKey), maxArticles)
  }

  /** The Tech articles are exactly the input's articles in the Tech section. */
  lemma {:induction false} TechOnlyMembers(articles: seq<Record>)
    ensures forall a :: a in TechOnly(articles) <==> a in articles && IsTech(a)
    ensures |TechOnly(articles)| <= |articles|
  {
    if articles != [] {
      var p := articles[..|articles| - 1];
      assert articles == p + [articles[|articles| - 1]];
      TechOnlyMembers(p);
    }
  }

  /** Only Tech articles are selected, at most `maxArticles` (when not
      negative) and at most as many as there are Tech articles, highest score
      first; no unselected Tech article outscores a selected one. */
  lemma SelectionShape(articles: seq<Record>, maxArticles: int)
    requires TechComparable(articles)
    ensures forall a :: a in SelectTopTechArticles(articles, maxArticles) ==> a in articles && IsTech(a)
    ensures maxArticles >= 0 ==> |SelectTopTechArticles(articles, maxArticles)| <= maxArticles
    ensures |SelectTopTechArticles(articles, maxArticles)| <= |TechOnly(articles)|
    ensures SortedDesc(SelectTopTechArticles(articles, maxArticles), TechKey)
    ensures forall x, y ::
      (x in articles && IsTech(x) && x !in SelectTopTechArticles(articles, maxArticles) && y in SelectTopTechArticles(articles, maxArticles))
      ==> TechKey(y) >= TechKey(x)
  {
    TechOnlyMembers(articles);
    TakeSortedShape(TechOnly(articles), TechKey, maxArticles);
    TakeSortedTop(TechOnly(articles), TechKey, maxArticles);
  }

  /** Ties keep input order: for each score, the selection holds the first
      Tech articles with that score. */
  lemma SelectionStable(articles: seq<Record>, maxArticles: int, k: int)
    requires TechComparable(articles)
    ensures var w := WithKey(SelectTopTechArticles(articles, maxArticles), TechKey, k);
      |w| <= |WithKey(TechOnly(articles), TechKey, k)| && w == WithKey(TechOnly(articles), TechKey, k)[..|w|]
  {
    TakeSortedStable(TechOnly(articles), TechKey, maxArticles, k);
  }

  // ---------------------------------------------------------------------
  // propose_tech_headline

  const DefaultHeadline := "Technology Update"
  const AiHeadline := "AI Developments Lead Technology News"
  const CloudHeadline := "Cloud Computing and Infrastructure Updates"
  const DealsHeadline := "Tech Industry M&A and Startup Activity"

  /** The lower-cased tags, in order. */
  function LowerAll(tags: seq<string>): (r: seq<string>)
    ensures |r| == |tags|
    ensures forall i :: 0 <= i < |tags| ==> r[i] == Lower(tags[i])
  {
    seq(|tags|, i requires 0 <= i < |tags| => Lower(tags[i]))
  }

  /** The three most frequent lower-cased tags, ties in first-seen order. */
  function Themes(techArticles: seq<Record>): seq<string> {
    Keys(MostCommon(LowerAll(Synthesis.AllTags(techArticles)), 3))
  }

  /** The fallback headline from a title, cut to 47 characters past 50. */
  function FallbackHeadline(title: string): string {
    if |title| > 50 then "Technology: " + title[..47] + "..." else "Technology: " + title
  }

  /** What `propose_tech_headline` needs: tags are lists of strings, and the
      first article's title, read for the fallback, is a string or absent. */
  predicate Headlinable(techArticles: seq<Record>) {
    (forall a :: a in techArticles ==> StrListOrAbsent(a, "ai_tags"))
    && (techArticles == [] || StrOrAbsent(techArticles[0], "title"))
  }

  /** The headline for the given themes, by fixed priority: AI, then cloud,
      then deals, then the first article's title. */
  function HeadlineFor(themes: seq<string>, techArticles: seq<Record>): string
    requires techArticles != []
  {
    if "ai" in themes || "artificial intelligence" in themes then AiHeadline
    else if "cloud" in themes || "kubernetes" in themes then CloudHeadline
    else if "startup" in themes || "acquisition" in themes then DealsHeadline
    else FallbackHeadline(StrField(techArticles[0], "title", DefaultHeadline))
  }

  /** The headline `propose_tech_headline` returns. */
  function Headline(techArticles: seq<Record>): string {
    if techArticles == [] then DefaultHeadline else HeadlineFor(Themes(techArticles), techArticles)
  }

  /** `propose_tech_headline` */
  method ProposeTechHeadline(techArticles: seq<Record>) returns (headline: string)
    requires Headlinable(techArticles)
    ensures headline == Headline(techArticles)
    ensures techArticles == [] ==> headline == DefaultHeadline
  {
    if techArticles == [] {
      return DefaultHeadline;
    }
    var allTags := Synthesis.GatherTags(techArticles);
    var tagCounts := CountLowered(allTags);
    var sortedTags := SortDesc(tagCounts, CountKey);
    var topThemes := Keys(PyTake(sortedTags, 3));
    if "ai" in topThemes || "artificial intelligence" in topThemes {
      headline := AiHeadline;
    } else if "cloud" in topThemes || "kubernetes" in topThemes {
      headline := CloudHeadline;
    } else if "startup" in topThemes || "acquisition" in topThemes {
      headline := DealsHeadline;
    } else {
      var topArticle := techArticles[0];
      var title := StrField(topArticle, "title", DefaultHeadline);
      if |title| > 50 {
        headline := "Technology: " + title[..47] + "...";
      } else {
        headline := "Technology: " + title;
      }
    }
  }

  /** The second loop: counts of the lower-cased tags, in first-seen order. */
  method CountLowered(allTags: seq<string>) returns (tagCounts: Counts)
    ensures tagCounts == Tally(LowerAll(allTags))
  {
    tagCounts := [];
    for i := 0 to |allTags|
      invariant tagCounts == Tally(LowerAll(allTags[..i]))
    {
      var seen := LowerAll(allTags[..i]);
      assert LowerAll(allTags[..i + 1]) == seen + [Lower(allTags[i])];
      assert (seen + [Lower(allTags[i])])[..|seen|] == seen;
      tagCounts := Bump(tagCounts, Lower(allTags[i]));
    }
    assert allTags[..|allTags|] == allTags;
  }

  /** At most three distinct themes, each a lower-cased tag of some article,
      by non-increasing count, ties in first-seen order. */
  lemma ThemesFacts(techArticles: seq<Record>)
    ensures |Themes(techArticles)| <= 3
    ensures Distinct(Themes(techArticles))
    ensures forall t :: t in Themes(techArticles) ==> t in LowerAll(Synthesis.AllTags(techArticles))
    ensures var lowered, th := LowerAll(Synthesis.AllTags(techArticles)), Themes(techArticles);
      forall i, j :: 0 <= i < j < |th| ==>
      th[i] in lowered && th[j] in lowered &&
      Occ(lowered, th[i]) >= Occ(lowered, th[j]) &&
      (Occ(lowered, th[i]) == Occ(lowered, th[j]) ==> FirstIndex(lowered, th[i]) < FirstIndex(lowered, th[j]))
    ensures var lowered, th := LowerAll(Synthesis.AllTags(techArticles)), Themes(techArticles);
      forall t, u :: t in lowered && t !in th && u in th ==> Occ(lowered, u) >= Occ(lowered, t)
    ensures var lowered, th := LowerAll(Synthesis.AllTags(techArticles)), Themes(techArticles);
      |th| < 3 ==> forall t :: t in lowered ==> t in th
  {
    ThemesOrder(techArticles);
    ThemesTop(techArticles);
  }

  /** The themes are distinct lower-cased tags, at most three, by
      non-increasing count, ties in first-seen order. */
  lemma ThemesOrder(techArticles: seq<Record>)
    ensures |Themes(techArticles)| <= 3
    ensures Distinct(Themes(techArticles))
    ensures forall t :: t in Themes(techArticles) ==> t in LowerAll(Synthesis.AllTags(techArticles))
    ensures var lowered, th := LowerAll(Synthesis.AllTags(techArticles)), Themes(techArticles);
      forall i, j :: 0 <= i < j < |th| ==>
      th[i] in lowered && th[j] in lowered &&
      Occ(lowered, th[i]) >= Occ(lowered, th[j]) &&
      (Occ(lowered, th[i]) == Occ(lowered, th[j]) ==> FirstIndex(lowered, th[i]) < FirstIndex(lowered, th[j]))
  {
    var lowered := LowerAll(Synthesis.AllTags(techArticles));
    var mc := MostCommon(lowered, 3);
    var th := Keys(mc);
    MostCommonFacts(lowered, 3);
    forall t | t in th ensures t in lowered {
      var i :| 0 <= i < |mc| && th[i] == t;
    }
    forall i, j | 0 <= i < j < |th|
      ensures Occ(lowered, th[i]) >= Occ(lowered, th[j])
      ensures Occ(lowered, th[i]) == Occ(lowered, th[j]) ==> FirstIndex(lowered, th[i]) < FirstIndex(lowered, th[j])
    {
      assert th[i] == mc[i].0 && th[j] == mc[j].0;
      assert CountKey(mc[i]) >= CountKey(mc[j]);
    }
  }

  /** No tag left out of the themes is more frequent than a theme, and a tag
      is left out only when three themes were found. */
  lemma ThemesTop(techArticles: seq<Record>)
    ensures var lowered, th := LowerAll(Synthesis.AllTags(techArticles)), Themes(techArticles);
      forall t, u :: t in lowered && t !in th && u in th ==> Occ(lowered, u) >= Occ(lowered, t)
    ensures var lowered, th := LowerAll(Synthesis.AllTags(techArticles)), Themes(techArticles);
      |th| < 3 ==> forall t :: t in lowered ==> t in th
  {
    var lowered := LowerAll(Synthesis.AllTags(techArticles));
    var mc := MostCommon(lowered, 3);
    forall t, u | t in lowered && t !in Keys(mc) && u in Keys(mc) ensures Occ(lowered, u) >= Occ(lowered, t) {
      MostCommonIsTop(lowered, 3, t);
      MostCommonFacts(lowered, 3);
      var i :| 0 <= i < |mc| && Keys(mc)[i] == u;
    }
    forall t | t in lowered && |mc| < 3 ensures t in Keys(mc) {
      MostCommonComplete(lowered, 3, t);
    }
  }

  /** Tags are counted without regard to case: article lists whose tag lists
      agree article by article once lower-cased give the same themes. */
  lemma CaseInsensitiveThemes(xs: seq<Record>, ys: seq<Record>)
    requires |xs| == |ys|
    requires forall i :: 0 <= i < |xs| ==>
      LowerAll(StrListField(xs[i], "ai_tags")) == LowerAll(StrListField(ys[i], "ai_tags"))
    ensures Themes(xs) == Themes(ys)
  {
    LoweredTagsAgree(xs, ys);
  }

  /** The lower-cased tags of both lists are the same. */
  lemma {:induction false} LoweredTagsAgree(xs: seq<Record>, ys: seq<Record>)
    requires |xs| == |ys|
    requires forall i :: 0 <= i < |xs| ==>
      LowerAll(StrListField(xs[i], "ai_tags")) == LowerAll(StrListField(ys[i], "ai_tags"))
    ensures LowerAll(Synthesis.AllTags(xs)) == LowerAll(Synthesis.AllTags(ys))
  {
    if xs != [] {
      var n := |xs| - 1;
      assert forall i :: 0 <= i < n ==> xs[..n][i] == xs[i] && ys[..n][i] == ys[i];
      LoweredTagsAgree(xs[..n], ys[..n]);
      LowerAllAppend(Synthesis.AllTags(xs[..n]), StrListField(xs[n], "ai_tags"));
      LowerAllAppend(Synthesis.AllTags(ys[..n]), StrListField(ys[n], "ai_tags"));
    }
  }

  lemma LowerAllAppend(a: seq<string>, b: seq<string>)
    ensures LowerAll(a + b) == LowerAll(a) + LowerAll(b)
  {
    assert forall i :: 0 <= i < |b| ==> (a + b)[|a| + i] == b[i];
  }

  /** The theme priority: an AI theme wins over cloud and deals themes, and a
      cloud theme over deals; the title is used only when no theme matches. */
  lemma HeadlinePriority(techArticles: seq<Record>)
    requires techArticles != []
    ensures ("ai" in Themes(techArticles) || "artificial intelligence" in Themes(techArticles)) ==>
      Headline(techArticles) == AiHeadline
    ensures ("ai" !in Themes(techArticles) && "artificial intelligence" !in Themes(techArticles) &&
      ("cloud" in Themes(techArticles) || "kubernetes" in Themes(techArticles))) ==>
      Headline(techArticles) == CloudHeadline
    ensures ("ai" !in Themes(techArticles) && "artificial intelligence" !in Themes(techArticles) &&
      "cloud" !in Themes(techArticles) && "kubernetes" !in Themes(techArticles) &&
      ("startup" in Themes(techArticles) || "acquisition" in Themes(techArticles))) ==>
      Headline(techArticles) == DealsHeadline
    ensures ("ai" !in Themes(techArticles) && "artificial intelligence" !in Themes(techArticles) &&
      "cloud" !in Themes(techArticles) && "kubernetes" !in Themes(techArticles) &&
      "startup" !in Themes(techArticles) && "acquisition" !in Themes(techArticles)) ==>
      Headline(techArticles) == FallbackHeadline(StrField(techArticles[0], "title", DefaultHeadline))
    ensures Headline(techArticles) == CloudHeadline ==>
      "ai" !in Themes(techArticles) && "artificial intelligence" !in Themes(techArticles) &&
      ("cloud" in Themes(techArticles) || "kubernetes" in Themes(techArticles))
    ensures Headline(techArticles) == DealsHeadline ==>
      "ai" !in Themes(techArticles) && "artificial intelligence" !in Themes(techArticles) &&
      "cloud" !in Themes(techArticles) && "kubernetes" !in Themes(techArticles) &&
      ("startup" in Themes(techArticles) || "acquisition" in Themes(techArticles))
    ensures Headline(techArticles) in {AiHeadline, CloudHeadline, DealsHeadline} ||
      Headline(techArticles) == FallbackHeadline(StrField(techArticles[0], "title", DefaultHeadline))
  {
    var title := StrField(techArticles[0], "title", DefaultHeadline);
    FallbackHeadlineShape(title);
    var f := FallbackHeadline(title);
    assert f[0] == 'T' && f[4] == 'n';
    assert CloudHeadline[0] == 'C' && DealsHeadline[4] == ' ';
  }

  /** A fallback headline starts with "Technology: " and never exceeds 62
      characters; a title over 50 characters keeps its first 47 and ends in "...". */
  lemma FallbackHeadlineShape(title: string)
    ensures StartsWith(FallbackHeadline(title), "Technology: ")
    ensures |title| <= 50 ==> FallbackHeadline(title) == "Technology: " + title
    ensures |title| <= 50 ==> |FallbackHeadline(title)| <= 62
    ensures |title| > 50 ==> |FallbackHeadline(title)| == 62 && FallbackHeadline(title)[12..59] == title[..47]
  {
    var h := FallbackHeadline(title);
    assert h[..12] == "Technology: ";
    if |title| > 50 {
      assert h[12..59] == title[..47];
    }
  }

  // ---------------------------------------------------------------------
  // enhance_tech_section

  datatype TechMeta = TechMeta(editor: string, articleCount: nat, curated: bool)

  datatype TechSection = TechSection(
    sectionName: string,
    editorHeadline: string,
    keyPoints: seq<string>,
    topArticles: seq<Record>,
    meta: TechMeta)

  /** What `enhance_tech_section` needs of an article for its key point:
      string tags, which are joined, and a title and a score that an f-string
      renders as scalars. */
  predicate Enhanceable(a: Record) {
    Hashable(Get(a, "title", Str("Untitled"))) && StrListOrAbsent(a, "ai_tags")
    && Hashable(Get(a, "relevance_score", Int(0)))
  }

  /** `f" [{', '.join(tags[:2])}]" if tags else ""` */
  function TagSuffix(tags: seq<string>): string {
    if tags != [] then " [" + Join(PyTake(tags, 2), ", ") + "]" else ""
  }

  /** One key point: bullet, title, the first two tags, and the score. */
  function KeyPoint(a: Record): string
    requires Enhanceable(a)
  {
    Join(["• ", Render(Get(a, "title", Str("Untitled"))), TagSuffix(StrListField(a, "ai_tags")),
      " (score: ", Render(Get(a, "relevance_score", Int(0))), ")"], "")
  }

  /** One key point per article, in order. */
  function KeyPointsOf(articles: seq<Record>): (r: seq<string>)
    requires forall a :: a in articles ==> Enhanceable(a)
    ensures |r| == |articles|
    ensures forall i :: 0 <= i < |articles| ==> r[i] == KeyPoint(articles[i])
  {
    if articles == [] then []
    else
      var last := articles[|articles| - 1];
      assert last in articles;
      KeyPointsOf(articles[..|articles| - 1]) + [KeyPoint(last)]
  }

  /** The article reference: five fields with their defaults. */
  function ArticleRef(a: Record): Record {
    map[
      "title" := Get(a, "title", Str("Untitled")),
      "url" := Get(a, "url", Str("")),
      "source_id" := Get(a, "source_id", Str("")),
      "relevance_score" := Get(a, "relevance_score", Int(0)),
      "ai_tags" := Get(a, "ai_tags", List([]))
    ]
  }

  /** One reference per article, in order. */
  function RefsOf(articles: seq<Record>): (r: seq<Record>)
    ensures |r| == |articles|
    ensures forall i :: 0 <= i < |articles| ==> r[i] == ArticleRef(articles[i])
  {
    if articles == [] then [] else RefsOf(articles[..|articles| - 1]) + [ArticleRef(articles[|articles| - 1])]
  }

  /** The section `enhance_tech_section` builds; it depends on the selected
      articles only. */
  function Section(techArticles: seq<Record>): TechSection
    requires forall a :: a in techArticles ==> Enhanceable(a)
  {
    var top := PyTake(techArticles, 5);
    assert forall a :: a in top ==> a in techArticles;
    TechSection("Technology", Headline(techArticles), KeyPointsOf(top), RefsOf(techArticles),
      TechMeta("agent_8_tech_editor", |techArticles|, true))
  }

  /** `enhance_tech_section`. The original section is read only to log the
      size of its `top_articles`, which must therefore support `len`; the
      headline takes the length of the first article's title. */
  method EnhanceTechSection(sectionData: Record, techArticles: seq<Record>) returns (enhanced: TechSection)
    requires SizedOrAbsent(sectionData, "top_articles")
    requires forall a :: a in techArticles ==> Enhanceable(a)
    requires techArticles == [] || StrOrAbsent(techArticles[0], "title")
    ensures enhanced == Section(techArticles)
  {
    var headline := ProposeTechHeadline(techArticles);
    var top := PyTake(techArticles, 5);
    assert forall a :: a in top ==> a in techArticles;
    var keyPoints := BuildKeyPoints(top);
    var articleRefs := BuildArticleRefs(techArticles);
    enhanced := TechSection("Technology", headline, keyPoints, articleRefs,
      TechMeta("agent_8_tech_editor", |techArticles|, true));
  }

  /** The key-point loop over the first five articles. */
  method BuildKeyPoints(articles: seq<Record>) returns (keyPoints: seq<string>)
    requires forall a :: a in articles ==> Enhanceable(a)
    ensures keyPoints == KeyPointsOf(articles)
  {
    keyPoints := [];
    for i := 0 to |articles|
      invariant keyPoints == KeyPointsOf(articles[..i])
    {
      assert articles[..i + 1][..i] == articles[..i];
      keyPoints := keyPoints + [KeyPoint(articles[i])];
    }
    assert articles[..|articles|] == articles;
  }

  /** The reference loop over all selected articles. */
  method BuildArticleRefs(articles: seq<Record>) returns (refs: seq<Record>)
    ensures refs == RefsOf(articles)
  {
    refs := [];
    for i := 0 to |articles|
      invariant refs == RefsOf(articles[..i])
    {
      assert articles[..i + 1][..i] == articles[..i];
      refs := refs + [ArticleRef(articles[i])];
    }
    assert articles[..|articles|] == articles;
  }

  /** The section has min(5, n) key points for the first articles, one
      reference per article in input order, and counts all n articles. */
  lemma SectionShape(techArticles: seq<Record>)
    requires forall a :: a in techArticles ==> Enhanceable(a)
    ensures var s, n := Section(techArticles), |techArticles|;
      |s.keyPoints| == (if n < 5 then n else 5) &&
      (forall i :: 0 <= i < |s.keyPoints| ==> s.keyPoints[i] == KeyPoint(techArticles[i])) &&
      |s.topArticles| == n &&
      (forall i :: 0 <= i < n ==> s.topArticles[i] == ArticleRef(techArticles[i])) &&
      s.meta == TechMeta("agent_8_tech_editor", n, true) &&
      s.sectionName == "Technology" && s.editorHeadline == Headline(techArticles)
  {
  }
}
