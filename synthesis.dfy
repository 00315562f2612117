/** The daily synthesizer (app/perception_agent/tools/synthesis_tools.py):
    highlights from the most important articles, source and tag statistics
    with `Counter.most_common`, and the daily brief that combines them. */
module Synthesis {
  import opened Json
  import opened Text
  import opened Sorting
  import opened Counting
  import opened Wrappers
  import RelevanceRanking

  /** The lines of the placeholder summary, with their indentation. */
  const SummaryLines: seq<string> := [
    "",
    "    Today's intelligence gathering revealed significant developments across tracked sectors.",
    "    Multiple sources reported converging trends in the technology and business categories,",
    "    with particular emphasis on strategic positioning and market dynamics.",
    "",
    "    Analysis of the 47 articles indicates a shift in narrative focus towards long-term",
    "    implications rather than immediate reactions. This pattern suggests stakeholders are",
    "    increasingly prioritizing strategic planning over reactive responses.",
    "",
    "    Executives should note the recurring themes of innovation and adaptation appearing",
    "    across diverse sources, potentially signaling broader industry shifts worth monitoring.",
    "    "]

  /** `generate_executive_summary`: the placeholder text, its lines joined by
      line breaks. */
  function GenerateExecutiveSummary(articles: seq<Record>): (r: string)
    ensures r == Join(SummaryLines, "\n")
  {
    Join(SummaryLines, "\n")
  }

  // ---------------------------------------------------------------------
  // identify_highlights

  /** What `identify_highlights` needs of an article: a comparable importance
      score, and a title and source that an f-string renders as scalars. */
  predicate HighlightReady(a: Record) {
    IntOrAbsent(a, "importance_score") && Hashable(Get(a, "title", Null)) && Hashable(Get(a, "source", Null))
  }

  predicate Highlightable(articles: seq<Record>) {
    forall a :: a in articles ==> HighlightReady(a)
  }

  /** The articles the highlights are drawn from: the `maxHighlights` most
      important, by a stable sort on `importance_score`. */
  function HighlightArticles(articles: seq<Record>, maxHighlights: int): seq<Record> {
    PyTake(SortDesc(articles, RelevanceRanking.ImportanceKey), maxHighlights)
  }

  /** One highlight line: title, source and importance as the f-string renders them. */
  function HighlightLine(a: Record): string
    requires HighlightReady(a)
  {
    Join([Render(Get(a, "title", Null)), " - ", Render(Get(a, "source", Null)),
      " (Importance: ", Render(Get(a, "importance_score", Null)), "/10)"], "")
  }

  /** One highlight line per article, in order. */
  function LinesOf(selected: seq<Record>): (r: seq<string>)
    requires forall a :: a in selected ==> HighlightReady(a)
    ensures |r| == |selected|
    ensures forall i :: 0 <= i < |selected| ==> r[i] == HighlightLine(selected[i])
  {
    if selected == [] then []
    else
      var last := selected[|selected| - 1];
      assert last in selected;
      LinesOf(selected[..|selected| - 1]) + [HighlightLine(last)]
  }

  /** The highlights `identify_highlights` returns. */
  function Highlights(articles: seq<Record>, maxHighlights: int): (r: seq<string>)
    requires Highlightable(articles)
    ensures maxHighlights >= 0 ==> |r| == if maxHighlights < |articles| then maxHighlights else |articles|
    ensures maxHighlights < 0 ==> |r| == if |articles| + maxHighlights > 0 then |articles| + maxHighlights else 0
  {
    TakeSortedShape(articles, RelevanceRanking.ImportanceKey, maxHighlights);
    LinesOf(HighlightArticles(articles, maxHighlights))
  }

  /** `identify_highlights` */
  method IdentifyHighlights(articles: seq<Record>, maxHighlights: int) returns (highlights: seq<string>)
    requires Highlightable(articles)
    ensures highlights == Highlights(articles, maxHighlights)
  {
    var selected := HighlightArticles(articles, maxHighlights);
    TakeSortedShape(articles, RelevanceRanking.ImportanceKey, maxHighlights);
    highlights := RenderHighlights(selected);
  }

  /** The loop of `identify_highlights`: one line per selected article. */
  method RenderHighlights(selected: seq<Record>) returns (highlights: seq<string>)
    requires forall a :: a in selected ==> HighlightReady(a)
    ensures highlights == LinesOf(selected)
  {
    highlights := [];
    for i := 0 to |selected|
      invariant highlights == LinesOf(selected[..i])
    {
      assert selected[..i + 1][..i] == selected[..i];
      highlights := highlights + [HighlightLine(selected[i])];
    }
    assert selected[..|selected|] == selected;
  }

  /** Each highlight line describes the article in the same position of the
      selection, which is an article of the input. */
  lemma HighlightLines(articles: seq<Record>, maxHighlights: int)
    requires Highlightable(articles)
    ensures |Highlights(articles, maxHighlights)| == |HighlightArticles(articles, maxHighlights)|
    ensures forall i :: 0 <= i < |Highlights(articles, maxHighlights)| ==>
      var a := HighlightArticles(articles, maxHighlights)[i];
      a in articles && Highlights(articles, maxHighlights)[i] == HighlightLine(a)
  {
    TakeSortedShape(articles, RelevanceRanking.ImportanceKey, maxHighlights);
  }

  /** The highlighted articles are by non-increasing importance (a missing
      score counts as 0), and for each score they are the first articles of
      the input with that score, in input order. */
  lemma HighlightOrder(articles: seq<Record>, maxHighlights: int, k: int)
    ensures SortedDesc(HighlightArticles(articles, maxHighlights), RelevanceRanking.ImportanceKey)
    ensures var w := WithKey(HighlightArticles(articles, maxHighlights), RelevanceRanking.ImportanceKey, k);
      |w| <= |WithKey(articles, RelevanceRanking.ImportanceKey, k)| &&
      w == WithKey(articles, RelevanceRanking.ImportanceKey, k)[..|w|]
  {
    TakeSortedShape(articles, RelevanceRanking.ImportanceKey, maxHighlights);
    TakeSortedStable(articles, RelevanceRanking.ImportanceKey, maxHighlights, k);
  }

  /** No article left out of the highlights is more important than one in them. */
  lemma HighlightTop(articles: seq<Record>, maxHighlights: int)
    ensures forall x, y ::
      (x in articles && x !in HighlightArticles(articles, maxHighlights) && y in HighlightArticles(articles, maxHighlights))
      ==> RelevanceRanking.ImportanceKey(y) >= RelevanceRanking.ImportanceKey(x)
  {
    TakeSortedTop(articles, RelevanceRanking.ImportanceKey, maxHighlights);
  }

  // ---------------------------------------------------------------------
  // calculate_metrics

  /** Sources are None or strings, and tags are lists of strings. */
  predicate Measurable(articles: seq<Record>) {
    forall a :: a in articles ==> KeyOrAbsent(a, "source") && StrListOrAbsent(a, "ai_tags")
  }

  /** `[a.get("source") for a in articles if a.get("source")]` */
  function Sources(articles: seq<Record>): seq<string>
    requires Measurable(articles)
  {
    if articles == [] then []
    else
      var a := articles[|articles| - 1];
      assert a in articles;
      Sources(articles[..|articles| - 1]) + SourceOf(a)
  }

  /** The article's source, when it is truthy. */
  function SourceOf(a: Record): seq<string>
    requires KeyOrAbsent(a, "source")
  {
    if Truthy(Get(a, "source", Null)) then [a["source"].s] else []
  }

  /** Every article's `ai_tags`, concatenated in order. */
  function AllTags(articles: seq<Record>): seq<string> {
    if articles == [] then []
    else AllTags(articles[..|articles| - 1]) + StrListField(articles[|articles| - 1], "ai_tags")
  }

  /** The integer metrics: the average importance is a float and is not modelled. */
  datatype SynthesisMetrics = SynthesisMetrics(articleCount: nat, topSources: Counts, mainTopics: seq<string>)

  /** The metrics `calculate_metrics` computes. */
  function Metrics(articles: seq<Record>): SynthesisMetrics
    requires Measurable(articles)
  {
    SynthesisMetrics(|articles|, MostCommon(Sources(articles), 10), Keys(MostCommon(AllTags(articles), 5)))
  }

  /** `calculate_metrics`. The average importance is 0 for an empty list,
      since the conditional guards the division. */
  method CalculateMetrics(articles: seq<Record>) returns (m: SynthesisMetrics)
    requires Measurable(articles)
    ensures m == Metrics(articles)
  {
    var sources := Sources(articles);
    var sourceCounts := MostCommon(sources, 10);
    var allTags := GatherTags(articles);
    var mainTopics := Keys(MostCommon(allTags, 5));
    m := SynthesisMetrics(|articles|, sourceCounts, mainTopics);
  }

  /** The tag loop: every article's `ai_tags`, extended in order. */
  method GatherTags(articles: seq<Record>) returns (allTags: seq<string>)
    ensures allTags == AllTags(articles)
  {
    allTags := [];
    for i := 0 to |articles|
      invariant allTags == AllTags(articles[..i])
    {
      assert articles[..i + 1][..i] == articles[..i];
      allTags := allTags + StrListField(articles[i], "ai_tags");
    }
    assert articles[..|articles|] == articles;
  }

  /** The sources counted are the truthy `source` values of the articles. */
  lemma {:induction false} SourcesMembers(articles: seq<Record>)
    requires Measurable(articles)
    ensures forall s :: s in Sources(articles) ==> s != "" && exists a :: a in articles && Get(a, "source", Null) == Str(s)
  {
    if articles != [] {
      var p := articles[..|articles| - 1];
      var a := articles[|articles| - 1];
      assert articles == p + [a];
      SourcesMembers(p);
      forall s | s in SourceOf(a) ensures s != "" && Get(a, "source", Null) == Str(s) {
      }
    }
  }

  /** Every gathered tag is a tag of some article. */
  lemma {:induction false} AllTagsMembers(articles: seq<Record>)
    ensures forall t :: t in AllTags(articles) ==> exists a :: a in articles && t in StrListField(a, "ai_tags")
  {
    if articles != [] {
      var p := articles[..|articles| - 1];
      assert articles == p + [articles[|articles| - 1]];
      AllTagsMembers(p);
    }
  }

  /** `top_sources` has at most 10 distinct, truthy sources of the articles,
      each with its true number of occurrences, most frequent first. */
  lemma TopSourcesFacts(articles: seq<Record>)
    requires Measurable(articles)
    ensures |Metrics(articles).topSources| <= 10
    ensures Distinct(Keys(Metrics(articles).topSources))
    ensures SortedDesc(Metrics(articles).topSources, CountKey)
    ensures forall i :: 0 <= i < |Metrics(articles).topSources| ==>
      var e := Metrics(articles).topSources[i];
      e.0 != "" && (exists a :: a in articles && Get(a, "source", Null) == Str(e.0)) && e.1 == Occ(Sources(articles), e.0)
  {
    MostCommonFacts(Sources(articles), 10);
    SourcesMembers(articles);
  }

  /** `main_topics` holds at most 5 distinct tags, each of some article, by
      non-increasing frequency, ties in first-encountered order. */
  lemma MainTopicsFacts(articles: seq<Record>)
    requires Measurable(articles)
    ensures |Metrics(articles).mainTopics| <= 5
    ensures Distinct(Metrics(articles).mainTopics)
    ensures forall t :: t in Metrics(articles).mainTopics ==> exists a :: a in articles && t in StrListField(a, "ai_tags")
    ensures forall i, j :: 0 <= i < j < |Metrics(articles).mainTopics| ==>
      var tags, mt := AllTags(articles), Metrics(articles).mainTopics;
      mt[i] in tags && mt[j] in tags &&
      Occ(tags, mt[i]) >= Occ(tags, mt[j]) &&
      (Occ(tags, mt[i]) == Occ(tags, mt[j]) ==> FirstIndex(tags, mt[i]) < FirstIndex(tags, mt[j]))
  {
    var tags := AllTags(articles);
    var mc := MostCommon(tags, 5);
    var mt := Keys(mc);
    MostCommonFacts(tags, 5);
    AllTagsMembers(articles);
    forall t | t in mt ensures t in tags {
      var i :| 0 <= i < |mc| && mt[i] == t;
      assert mc[i].0 in tags;
    }
    forall i, j | 0 <= i < j < |mt|
      ensures Occ(tags, mt[i]) >= Occ(tags, mt[j]) &&
        (Occ(tags, mt[i]) == Occ(tags, mt[j]) ==> FirstIndex(tags, mt[i]) < FirstIndex(tags, mt[j]))
    {
      var a, b := mc[i], mc[j];
      assert a.0 == mt[i] && b.0 == mt[j];
      assert CountKey(a) >= CountKey(b);
    }
  }

  // ---------------------------------------------------------------------
  // create_daily_brief

  datatype DailyBrief = DailyBrief(
    date: string,
    executiveSummary: string,
    highlights: seq<string>,
    metrics: SynthesisMetrics,
    status: string,
    generatedAt: string)

  /** The brief's summary: the placeholder text with surrounding whitespace
      stripped. */
  function BriefSummary(articles: seq<Record>): (r: string)
    ensures r == [] || (!IsSpace(r[0]) && !IsSpace(r[|r| - 1]))
    ensures Contains(GenerateExecutiveSummary(articles), r)
    ensures var s := GenerateExecutiveSummary(articles);
      exists i, j :: 0 <= i <= j <= |s| && r == s[i..j] && AllSpace(s[..i]) && AllSpace(s[j..])
  {
    Strip(GenerateExecutiveSummary(articles))
  }

  /** `create_daily_brief`. `today` is the clock's date (as `%Y-%m-%d`) and
      `now` its ISO timestamp; a missing or empty date falls back to `today`. */
  method CreateDailyBrief(articles: seq<Record>, date: Option<string>, today: string, now: string)
    returns (brief: DailyBrief)
    requires Highlightable(articles) && Measurable(articles)
    ensures brief.date == (if date.Some? && date.value != "" then date.value else today)
    ensures brief.status == "Generated" && brief.generatedAt == now
    ensures brief.highlights == Highlights(articles, 7)
    ensures brief.metrics == Metrics(articles)
    ensures brief.executiveSummary == BriefSummary(articles)
  {
    var d := if date.Some? && date.value != "" then date.value else today;
    var summary := BriefSummary(articles);
    var highlights := IdentifyHighlights(articles, 7);
    var metrics := CalculateMetrics(articles);
    brief := DailyBrief(d, summary, highlights, metrics, "Generated", now);
  }
}
