/** The brief writer (app/perception_agent/tools/agent_4_tools.py): source
    counts for the brief's metrics, and the brief itself, whose summary,
    highlights and strategic implications are still stubs. */
module BriefWriter {
  import opened Json
  import opened Counting
  import Wrappers

  const NoSummary := "No articles available for summary."

  /** `generate_executive_summary`: the stub's fixed sentence. */
  function GenerateExecutiveSummary(articles: seq<Record>): (r: string)
    ensures r == NoSummary
  {
    NoSummary
  }

  /** `extract_highlights`: the stub extracts none. */
  function ExtractHighlights(articles: seq<Record>, maxHighlights: int): (r: seq<string>)
    ensures r == []
  {
    []
  }

  /** `analyze_strategic_implications`: the stub maps no topic. */
  function AnalyzeStrategicImplications(articles: seq<Record>, topics: seq<Record>): (r: map<string, string>)
    ensures r == map[]
  {
    map[]
  }

  /** The metrics dict: `top_sources` maps each source id to its count, in
      first-seen order. */
  datatype BriefMetrics = BriefMetrics(articleCount: nat, topSources: Counts, mainTopics: seq<string>)

  /** Source ids are None or strings, so that they can be dict keys. */
  predicate HasSourceIds(articles: seq<Record>) {
    forall a :: a in articles ==> KeyOrAbsent(a, "source_id")
  }

  /** The truthy `source_id` values, in input order. */
  function SourceIds(articles: seq<Record>): seq<string>
    requires HasSourceIds(articles)
  {
    if articles == [] then []
    else
      var a := articles[|articles| - 1];
      assert a in articles;
      SourceIds(articles[..|articles| - 1]) + SourceIdOf(a)
  }

  /** The article's source id, when it is truthy. */
  function SourceIdOf(a: Record): seq<string>
    requires KeyOrAbsent(a, "source_id")
  {
    if Truthy(Get(a, "source_id", Null)) then [a["source_id"].s] else []
  }

  /** The metrics `calculate_brief_metrics` computes. */
  function Metrics(articles: seq<Record>): BriefMetrics
    requires HasSourceIds(articles)
  {
    BriefMetrics(|articles|, Tally(SourceIds(articles)), [])
  }

  /** `calculate_brief_metrics`: counts the truthy source ids one article at a time. */
  method CalculateBriefMetrics(articles: seq<Record>) returns (m: BriefMetrics)
    requires HasSourceIds(articles)
    ensures m == Metrics(articles)
  {
    var topSources: Counts := [];
    for i := 0 to |articles|
      invariant topSources == Tally(SourceIds(articles[..i]))
    {
      var article := articles[i];
      assert articles[..i + 1][..i] == articles[..i];
      assert article in articles;
      var seen := SourceIds(articles[..i]);
      assert SourceIds(articles[..i + 1]) == seen + SourceIdOf(article);
      var sourceId := Get(article, "source_id", Null);
      if Truthy(sourceId) {
        assert SourceIdOf(article) == [sourceId.s];
        assert (seen + [sourceId.s])[..|seen|] == seen;
        assert Tally(seen + [sourceId.s]) == Bump(Tally(seen), sourceId.s);
        topSources := Bump(topSources, sourceId.s);
      } else {
        assert SourceIdOf(article) == [];
        assert seen + [] == seen;
      }
    }
    assert articles[..|articles|] == articles;
    m := BriefMetrics(|articles|, topSources, []);
  }

  /** The source ids are non-empty strings taken from the articles, at most
      one per article; an article without a truthy id contributes none. */
  lemma SourceIdsFacts(articles: seq<Record>)
    requires HasSourceIds(articles)
    ensures |SourceIds(articles)| <= |articles|
    ensures forall s :: s in SourceIds(articles) ==> s != "" && exists a :: a in articles && Get(a, "source_id", Null) == Str(s)
    ensures |SourceIds(articles)| == |articles| <==> forall a :: a in articles ==> Truthy(Get(a, "source_id", Null))
  {
    SourceIdsLength(articles);
    SourceIdsMembers(articles);
  }

  lemma {:induction false} SourceIdsLength(articles: seq<Record>)
    requires HasSourceIds(articles)
    ensures |SourceIds(articles)| <= |articles|
    ensures |SourceIds(articles)| == |articles| <==> forall a :: a in articles ==> Truthy(Get(a, "source_id", Null))
  {
    if articles != [] {
      var p := articles[..|articles| - 1];
      var a := articles[|articles| - 1];
      assert articles == p + [a];
      assert forall b :: b in p ==> b in articles;
      SourceIdsLength(p);
      assert SourceIds(articles) == SourceIds(p) + SourceIdOf(a);
    }
  }

  lemma {:induction false} SourceIdsMembers(articles: seq<Record>)
    requires HasSourceIds(articles)
    ensures forall s :: s in SourceIds(articles) ==> s != "" && exists a :: a in articles && Get(a, "source_id", Null) == Str(s)
  {
    if articles != [] {
      var p := articles[..|articles| - 1];
      var a := articles[|articles| - 1];
      assert articles == p + [a];
      assert forall b :: b in p ==> b in articles;
      SourceIdsMembers(p);
      assert SourceIds(articles) == SourceIds(p) + SourceIdOf(a);
      if Truthy(Get(a, "source_id", Null)) {
        assert a in articles && Get(a, "source_id", Null) == Str(SourceIdOf(a)[0]);
      }
    }
  }

  /** `article_count` counts every article, the source counts sum to the
      number of articles with a truthy source id, each key occurs once and is
      such an id, and each count is that id's number of occurrences. */
  lemma MetricsFacts(articles: seq<Record>)
    requires HasSourceIds(articles)
    ensures Metrics(articles).articleCount == |articles|
    ensures Total(Metrics(articles).topSources) == |SourceIds(articles)| <= |articles|
    ensures Distinct(Keys(Metrics(articles).topSources))
    ensures forall i :: 0 <= i < |Metrics(articles).topSources| ==>
      Metrics(articles).topSources[i].0 in SourceIds(articles) &&
      Metrics(articles).topSources[i].1 == Occ(SourceIds(articles), Metrics(articles).topSources[i].0)
    ensures Metrics(articles).mainTopics == []
  {
    SourceIdsFacts(articles);
    TallyTotal(SourceIds(articles));
    TallyKeys(SourceIds(articles));
    TallyCounts(SourceIds(articles));
  }

  datatype Brief = Brief(
    date: string,
    executiveSummary: string,
    highlights: seq<string>,
    strategicImplications: map<string, string>,
    metrics: BriefMetrics)

  /** `generate_brief`; `today` is the ISO date the clock would give when no
      date is passed. */
  method GenerateBrief(articles: seq<Record>, topics: seq<Record>, briefDate: Wrappers.Option<string>, today: string)
    returns (brief: Brief)
    requires HasSourceIds(articles)
    ensures brief.date == (if briefDate.Some? then briefDate.value else today)
    ensures brief.executiveSummary == NoSummary
    ensures brief.highlights == [] && brief.strategicImplications == map[]
    ensures brief.metrics == Metrics(articles)
  {
    var date := if briefDate.None? then today else briefDate.value;
    var metrics := CalculateBriefMetrics(articles);
    brief := Brief(date, GenerateExecutiveSummary(articles), ExtractHighlights(articles, 7),
      AnalyzeStrategicImplications(articles, topics), metrics);
  }
}
