/** Relevance and ranking (app/perception_agent/tools/agent_3_tools.py): the
    overall importance of an article from its per-topic scores, the threshold
    filter, and the ranking by importance. The model-backed topic scoring is a
    stub in the source. */
module RelevanceRanking {
  import opened Json
  import opened Sorting
  import Scoring

  /** The scoring result the stub returns. */
  datatype TopicScoring = TopicScoring(
    articleId: Value,
    topicScores: seq<(string, int)>,
    matchedTopics: seq<string>,
    matchedKeywords: seq<string>,
    overallScore: int)

  /** `score_article_relevance`: the stub identifies the article by its url and scores nothing. */
  function ScoreArticleRelevance(article: Record, topics: seq<Record>): (r: TopicScoring)
    ensures r.articleId == Get(article, "url", Null)
    ensures r.topicScores == [] && r.matchedTopics == [] && r.matchedKeywords == [] && r.overallScore == 0
  {
    TopicScoring(Get(article, "url", Null), [], [], [], 0)
  }

  /** `match_article_to_topics`: the stub matches no topic. */
  function MatchArticleToTopics(article: Record, topics: seq<Record>, threshold: int): (r: seq<string>)
    ensures r == []
  {
    []
  }

  /** `calculate_importance`: 0 without topic scores, otherwise the highest one.
      The scores are the dict's (topic id, score) entries in insertion order. */
  function CalculateImportance(article: Record, topicScores: seq<(string, int)>): (r: int)
    ensures topicScores == [] ==> r == 0
    ensures topicScores != [] ==> exists i :: 0 <= i < |topicScores| && topicScores[i].1 == r
    ensures forall i :: 0 <= i < |topicScores| ==> topicScores[i].1 <= r
  {
    if topicScores == [] then 0 else MaxScore(topicScores)
  }

  /** The largest score of a non-empty table. */
  function MaxScore(topicScores: seq<(string, int)>): (r: int)
    requires topicScores != []
    ensures exists i :: 0 <= i < |topicScores| && topicScores[i].1 == r
    ensures forall i :: 0 <= i < |topicScores| ==> topicScores[i].1 <= r
  {
    var last := topicScores[|topicScores| - 1].1;
    if |topicScores| == 1 then last
    else
      var p := topicScores[..|topicScores| - 1];
      var m := MaxScore(p);
      assert forall i :: 0 <= i < |p| ==> p[i] == topicScores[i];
      if m >= last then m else last
  }

  /** `filter_by_threshold`: the same comprehension as the scorer's, with the
      threshold named `threshold`. */
  function FilterByThreshold(articles: seq<Record>, threshold: int): (r: seq<Record>)
    requires Scoring.ScoresComparable(articles, "relevance_score")
    ensures Subsequence(r, articles)
    ensures forall a :: a in r ==> IntField(a, "relevance_score", 0) >= threshold
    ensures forall a :: a in articles && IntField(a, "relevance_score", 0) >= threshold ==> a in r
  {
    Scoring.KeepMembers(articles, "relevance_score", threshold);
    Scoring.KeepSubsequence(articles, "relevance_score", threshold);
    Scoring.KeepAtLeast(articles, "relevance_score", threshold)
  }

  /** The ranking key: `importance_score`, 0 when missing. */
  function ImportanceKey(a: Record): int {
    IntField(a, "importance_score", 0)
  }

  /** `rank_articles`: a stable sort by `importance_score`, highest first. */
  function RankArticles(articles: seq<Record>): (r: seq<Record>)
    requires Scoring.ScoresComparable(articles, "importance_score")
    ensures multiset(r) == multiset(articles)
    ensures SortedDesc(r, ImportanceKey)
  {
    SortDesc(articles, ImportanceKey)
  }

  /** Articles with equal importance keep their input order. */
  lemma RankArticlesStable(articles: seq<Record>, k: int)
    requires Scoring.ScoresComparable(articles, "importance_score")
    ensures WithKey(RankArticles(articles), ImportanceKey, k) == WithKey(articles, ImportanceKey, k)
  {
    SortDescStable(articles, ImportanceKey, k);
  }
}
