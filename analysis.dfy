/** Article analysis (app/perception_agent/tools/analysis_tools.py): summaries
    and tags (placeholders until the language model is wired in) and the
    keyword-based importance score, for one article and for a batch. */
module Analysis {
  import opened Json
  import opened Text
  import opened Sorting

  const SummaryPlaceholder := "AI-generated summary placeholder"
  const PlaceholderTags: seq<string> := ["tag1", "tag2", "tag3", "tag4"]
  /** The title words that mark an article as important. */
  const UrgentKeywords: seq<string> := ["breaking", "exclusive", "urgent", "major", "critical"]

  /** `generate_summary`: the text must support `len` (it is logged); the
      result is the placeholder summary. */
  function GenerateSummary(articleText: Value, maxSentences: int): (r: string)
    requires Sized(articleText)
    ensures r == SummaryPlaceholder
  {
    SummaryPlaceholder
  }

  /** `extract_tags`: the first `maxTags` placeholder tags, with Python slice
      semantics for a negative count. */
  function ExtractTags(articleText: Value, topics: seq<string>, maxTags: int): (r: seq<string>)
    ensures |r| <= 4 && r == PlaceholderTags[..|r|]
    ensures 0 <= maxTags <= 4 ==> |r| == maxTags
    ensures maxTags > 4 ==> |r| == 4
    ensures -4 <= maxTags < 0 ==> |r| == 4 + maxTags
    ensures maxTags < -4 ==> r == []
  {
    PyTake(PlaceholderTags, maxTags)
  }

  // ---------------------------------------------------------------------
  // score_importance

  /** The lower-cased title. */
  function TitleText(article: Record): string {
    Lower(StrField(article, "title", ""))
  }

  /** Some important keyword occurs in the (lower-cased) title. */
  predicate Urgent(title: string) {
    exists i :: 0 <= i < |UrgentKeywords| && Contains(title, UrgentKeywords[i])
  }

  /** `len(article.get("matched_keywords", []))` */
  function MatchedCount(article: Record): nat
    requires SizedOrAbsent(article, "matched_keywords")
  {
    if "matched_keywords" in article then Len(article["matched_keywords"]) else 0
  }

  /** What `score_importance` accepts: a string title or none, and matched
      keywords `len` accepts or none. */
  predicate Scorable(article: Record) {
    StrOrAbsent(article, "title") && SizedOrAbsent(article, "matched_keywords")
  }

  /** The importance: base 5, plus 2 for an important title word (once,
      however many occur), plus 1 for more than two matched keywords (the
      1.5 boost after truncation to an integer). */
  function Importance(article: Record): (r: int)
    requires Scorable(article)
    ensures 5 <= r <= 8
  {
    5 + (if Urgent(TitleText(article)) then 2 else 0) + (if MatchedCount(article) > 2 then 1 else 0)
  }

  /** `score_importance`. The score is kept in half points so that the 1.5
      boost and the `int()` truncation are exact. */
  method ScoreImportance(article: Record) returns (score: int)
    requires Scorable(article)
    ensures score == Importance(article)
  {
    var half := 10;
    var title := TitleText(article);
    for i := 0 to |UrgentKeywords|
      invariant half == 10
      invariant forall j :: 0 <= j < i ==> !Contains(title, UrgentKeywords[j])
    {
      if Contains(title, UrgentKeywords[i]) {
        half := half + 4;
        break;
      }
    }
    var matchedTopics := if "matched_keywords" in article then Len(article["matched_keywords"]) else 0;
    if matchedTopics > 2 {
      half := half + 3;
    }
    score := if half / 2 < 10 then half / 2 else 10;
  }

  /** An urgent title scores exactly 2 more than the same article with a
      calm one, whichever and however many keywords it holds. */
  lemma UrgencyOnce(article: Record, calm: string)
    requires Scorable(article) && Urgent(TitleText(article))
    requires !Urgent(Lower(calm))
    ensures Importance(article) == Importance(article["title" := Str(calm)]) + 2
  {
    assert TitleText(article["title" := Str(calm)]) == Lower(calm);
    assert MatchedCount(article["title" := Str(calm)]) == MatchedCount(article);
  }

  // ---------------------------------------------------------------------
  // analyze_batch

  /** What `analyze_batch` accepts per article: the content (summarised) must
      support `len`, the rest as `score_importance` requires. */
  predicate Analyzable(article: Record) {
    SizedOrAbsent(article, "content") && Scorable(article)
  }

  /** The analysis record of one article. */
  function Analyzed(article: Record): Record
    requires Analyzable(article)
  {
    map[
      "article_id" := Get(article, "url", Str("")),
      "title" := Get(article, "title", Null),
      "summary" := Str(GenerateSummary(Get(article, "content", Str("")), 5)),
      "ai_tags" := List(StrValues(ExtractTags(Get(article, "content", Str("")), [], 4))),
      "importance_score" := Int(Importance(article)),
      "url" := Get(article, "url", Null),
      "source" := Get(article, "source", Null)
    ]
  }

  /** The fields of an analysis record: the url doubles as the article id
      ("" without one), every summary is the placeholder, every article gets
      all four tags, and the importance lies in 5..8. */
  lemma AnalyzedFields(article: Record)
    requires Analyzable(article)
    ensures Analyzed(article).Keys == {"article_id", "title", "summary", "ai_tags", "importance_score", "url", "source"}
    ensures Analyzed(article)["article_id"] == (if "url" in article then article["url"] else Str(""))
    ensures Analyzed(article)["url"] == (if "url" in article then article["url"] else Null)
    ensures Analyzed(article)["summary"] == Str(SummaryPlaceholder)
    ensures Analyzed(article)["ai_tags"] == List([Str("tag1"), Str("tag2"), Str("tag3"), Str("tag4")])
    ensures Analyzed(article)["importance_score"].Int?
    ensures 5 <= Analyzed(article)["importance_score"].i <= 8
  {
    var tags := ExtractTags(Get(article, "content", Str("")), [], 4);
    assert tags == PlaceholderTags;
    assert StrValues(tags) == [Str("tag1"), Str("tag2"), Str("tag3"), Str("tag4")];
  }

  /** `analyze_batch`: one analysis record per article, in input order. */
  method AnalyzeBatch(articles: seq<Record>) returns (analyzed: seq<Record>)
    requires forall a :: a in articles ==> Analyzable(a)
    ensures |analyzed| == |articles|
    ensures forall i :: 0 <= i < |articles| ==> analyzed[i] == Analyzed(articles[i])
  {
    analyzed := [];
    for k := 0 to |articles|
      invariant |analyzed| == k
      invariant forall i :: 0 <= i < k ==> analyzed[i] == Analyzed(articles[i])
    {
      var article := articles[k];
      assert article in articles;
      var summary := GenerateSummary(Get(article, "content", Str("")), 5);
      var tags := ExtractTags(Get(article, "content", Str("")), [], 4);
      var importance := ScoreImportance(article);
      analyzed := analyzed + [map[
        "article_id" := Get(article, "url", Str("")),
        "title" := Get(article, "title", Null),
        "summary" := Str(summary),
        "ai_tags" := List(StrValues(tags)),
        "importance_score" := Int(importance),
        "url" := Get(article, "url", Null),
        "source" := Get(article, "source", Null)
      ]];
    }
  }
}
