/** The keyword relevance scorer (app/perception_agent/tools/scoring_tools.py):
    3 points per keyword entry found in the title, 1 per further distinct keyword
    found in the content, 2 for a boosted source, capped at 10; ranking by that
    score and filtering by a threshold. */
module Scoring {
  import opened Json
  import opened Text
  import opened Sorting

  /** The scored article: the input, its score, and what matched where. The
      source returns the two match lists through `list(set(...))`, whose order
      Python leaves unspecified, so they are sets here. */
  datatype Scored = Scored(article: Record, relevanceScore: int, matchedKeywords: set<string>, matchLocations: set<Location>)

  /** The location tags "title" and "content". */
  datatype Location = Title | Content

  /** The title and content are strings when present (`.lower()` is called on them). */
  predicate Scorable(article: Record) {
    StrOrAbsent(article, "title") && StrOrAbsent(article, "content")
  }

  function TitleText(article: Record): string {
    Lower(StrField(article, "title", ""))
  }

  function ContentText(article: Record): string {
    Lower(StrField(article, "content", ""))
  }

  /** `keyword.lower() in text` */
  predicate Mentions(text: string, keyword: string) {
    Contains(text, Lower(keyword))
  }

  /** The keyword entries found in the title, in list order, repeats included. */
  function TitleMatches(keywords: seq<string>, title: string): seq<string> {
    if keywords == [] then []
    else
      var k := keywords[|keywords| - 1];
      TitleMatches(keywords[..|keywords| - 1], title) + (if Mentions(title, k) then [k] else [])
  }

  /** The keywords found in the title. */
  function TitleSet(keywords: seq<string>, title: string): set<string> {
    set k | k in TitleMatches(keywords, title)
  }

  /** The keywords found in the content but not in the title: each counts once. */
  function ContentOnly(keywords: seq<string>, title: string, content: string): set<string> {
    if keywords == [] then {}
    else
      var k := keywords[|keywords| - 1];
      ContentOnly(keywords[..|keywords| - 1], title, content)
        + (if Mentions(content, k) && !Mentions(title, k) then {k} else {})
  }

  lemma {:induction false} ContentOnlyMembers(keywords: seq<string>, title: string, content: string)
    ensures forall k :: k in ContentOnly(keywords, title, content) <==>
      k in keywords && Mentions(content, k) && !Mentions(title, k)
  {
    if keywords != [] {
      var p := keywords[..|keywords| - 1];
      ContentOnlyMembers(p, title, content);
      assert keywords == p + [keywords[|keywords| - 1]];
    }
  }

  /** `boost_sources and article.get("source") in boost_sources` */
  predicate Boosted(article: Record, boostSources: seq<string>) {
    |boostSources| > 0 && Get(article, "source", Null) in StrValues(boostSources)
  }

  /** The score before the cap. */
  function RawScore(article: Record, keywords: seq<string>, boostSources: seq<string>): nat {
    3 * |TitleMatches(keywords, TitleText(article))|
    + |ContentOnly(keywords, TitleText(article), ContentText(article))|
    + (if Boosted(article, boostSources) then 2 else 0)
  }

  /** The result `calculate_relevance_score` returns. */
  function Relevance(article: Record, keywords: seq<string>, boostSources: seq<string>): (r: Scored)
    ensures 0 <= r.relevanceScore <= 10
    ensures r.relevanceScore ==
      if RawScore(article, keywords, boostSources) < 10 then RawScore(article, keywords, boostSources) else 10
    ensures r.article == article
  {
    var title := TitleText(article);
    var content := ContentText(article);
    var raw := RawScore(article, keywords, boostSources);
    Scored(
      article,
      if raw < 10 then raw else 10,
      TitleSet(keywords, title) + ContentOnly(keywords, title, content),
      (if TitleMatches(keywords, title) != [] then {Title} else {})
      + (if ContentOnly(keywords, title, content) != {} then {Content} else {}))
  }

  /** The matched keywords are exactly the keywords found in the title or the content. */
  lemma RelevanceKeywords(article: Record, keywords: seq<string>, boostSources: seq<string>)
    ensures Relevance(article, keywords, boostSources).matchedKeywords ==
      set k | k in keywords && (Mentions(TitleText(article), k) || Mentions(ContentText(article), k))
  {
    TitleMatchesMembers(keywords, TitleText(article));
    ContentOnlyMembers(keywords, TitleText(article), ContentText(article));
  }

  /** "title" is reported exactly when some keyword is found in the title. */
  lemma RelevanceTitleLocation(article: Record, keywords: seq<string>, boostSources: seq<string>)
    ensures Title in Relevance(article, keywords, boostSources).matchLocations <==>
      exists k :: k in keywords && Mentions(TitleText(article), k)
  {
    var title := TitleText(article);
    TitleMatchesMembers(keywords, title);
    TitleMatchesEmpty(keywords, title);
    if Title in Relevance(article, keywords, boostSources).matchLocations {
      var m := TitleMatches(keywords, title);
      assert m[0] in m;
    }
  }

  /** "content" is reported exactly when some keyword is found in the content but not the title. */
  lemma RelevanceContentLocation(article: Record, keywords: seq<string>, boostSources: seq<string>)
    ensures Content in Relevance(article, keywords, boostSources).matchLocations <==>
      exists k :: k in keywords && Mentions(ContentText(article), k) && !Mentions(TitleText(article), k)
  {
    var title := TitleText(article);
    var content := ContentText(article);
    ContentOnlyMembers(keywords, title, content);
    if exists k :: k in keywords && Mentions(content, k) && !Mentions(title, k) {
      var k :| k in keywords && Mentions(content, k) && !Mentions(title, k);
      assert k in ContentOnly(keywords, title, content);
    }
  }

  lemma {:induction false} TitleMatchesMembers(keywords: seq<string>, title: string)
    ensures forall k :: k in TitleMatches(keywords, title) <==> k in keywords && Mentions(title, k)
  {
    if keywords != [] {
      var p := keywords[..|keywords| - 1];
      TitleMatchesMembers(p, title);
      assert keywords == p + [keywords[|keywords| - 1]];
    }
  }

  lemma TitleMatchesEmpty(keywords: seq<string>, title: string)
    ensures TitleMatches(keywords, title) == [] <==> TitleSet(keywords, title) == {}
  {
    TitleMatchesMembers(keywords, title);
    var m := TitleMatches(keywords, title);
    if m != [] {
      assert m[0] in TitleSet(keywords, title);
    }
  }

  /** How one more keyword changes the content-only set in the second loop. */
  lemma ContentStep(keywords: seq<string>, i: nat, title: string, content: string, titleList: seq<string>)
    requires i < |keywords| && titleList == TitleMatches(keywords, title)
    ensures var k := keywords[i];
      var before := ContentOnly(keywords[..i], title, content);
      var after := ContentOnly(keywords[..i + 1], title, content);
      if Mentions(content, k) && k !in titleList && k !in before then after == before + {k} && |after| == |before| + 1
      else after == before
  {
    var k := keywords[i];
    assert keywords[..i + 1][..i] == keywords[..i];
    TitleMatchesMembers(keywords, title);
    assert k in keywords;
  }

  /** The first loop of `calculate_relevance_score`: 3 points and a "title"
      location for each keyword entry found in the title. */
  method MatchTitle(keywords: seq<string>, title: string)
    returns (score: int, matched: seq<string>, locations: seq<Location>)
    ensures matched == TitleMatches(keywords, title)
    ensures score == 3 * |matched|
    ensures Title in locations <==> matched != []
    ensures Content !in locations
  {
    score := 0;
    matched := [];
    locations := [];
    for i := 0 to |keywords|
      invariant matched == TitleMatches(keywords[..i], title)
      invariant score == 3 * |matched|
      invariant Title in locations <==> matched != []
      invariant Content !in locations
    {
      assert keywords[..i + 1][..i] == keywords[..i];
      if Mentions(title, keywords[i]) {
        score := score + 3;
        matched := matched + [keywords[i]];
        locations := locations + [Title];
      }
    }
    assert keywords[..|keywords|] == keywords;
  }

  /** The second loop: 1 point and a "content" location for each keyword found
      in the content that is not yet in the matched list. */
  method MatchContent(keywords: seq<string>, title: string, content: string,
                      score0: int, matched0: seq<string>, locations0: seq<Location>)
    returns (score: int, matched: seq<string>, locations: seq<Location>)
    requires matched0 == TitleMatches(keywords, title)
    requires Content !in locations0
    ensures score == score0 + |ContentOnly(keywords, title, content)|
    ensures forall k :: k in matched <==> k in matched0 || k in ContentOnly(keywords, title, content)
    ensures Title in locations <==> Title in locations0
    ensures Content in locations <==> ContentOnly(keywords, title, content) != {}
  {
    score, matched, locations := score0, matched0, locations0;
    for i := 0 to |keywords|
      invariant forall k :: k in matched <==> k in matched0 || k in ContentOnly(keywords[..i], title, content)
      invariant score == score0 + |ContentOnly(keywords[..i], title, content)|
      invariant Title in locations <==> Title in locations0
      invariant Content in locations <==> ContentOnly(keywords[..i], title, content) != {}
    {
      var keyword := keywords[i];
      ContentStep(keywords, i, title, content, matched0);
      if Mentions(content, keyword) && keyword !in matched {
        score := score + 1;
        matched := matched + [keyword];
        locations := locations + [Content];
      }
    }
    assert keywords[..|keywords|] == keywords;
  }

  lemma LocationsAsSet(ls: set<Location>, t: bool, c: bool)
    requires Title in ls <==> t
    requires Content in ls <==> c
    ensures ls == (if t then {Title} else {}) + (if c then {Content} else {})
  {
    forall l: Location ensures l in ls <==> l in (if t then {Title} else {}) + (if c then {Content} else {}) {
      if l.Title? {
        assert l == Title;
      } else {
        assert l == Content;
      }
    }
  }

  /** `calculate_relevance_score` (the recency bonus is a no-op in the source). */
  method CalculateRelevanceScore(article: Record, keywords: seq<string>, boostSources: seq<string>)
    returns (r: Scored)
    requires Scorable(article)
    ensures r == Relevance(article, keywords, boostSources)
  {
    var title := TitleText(article);
    var content := ContentText(article);
    var score, matched, locations := MatchTitle(keywords, title);
    ghost var titleList := matched;
    score, matched, locations := MatchContent(keywords, title, content, score, matched, locations);
    if |boostSources| > 0 && Get(article, "source", Null) in StrValues(boostSources) {
      score := score + 2;
    }
    var keywordSet := set k | k in matched;
    var locationSet := set l | l in locations;
    assert score == RawScore(article, keywords, boostSources);
    assert keywordSet == TitleSet(keywords, title) + ContentOnly(keywords, title, content);
    LocationsAsSet(locationSet, titleList != [], ContentOnly(keywords, title, content) != {});
    r := Scored(article, if score < 10 then score else 10, keywordSet, locationSet);
  }

  /** A keyword found in the title is never counted again for the content. */
  lemma TitleNotRecounted(article: Record, keywords: seq<string>, k: string)
    requires Mentions(TitleText(article), k)
    ensures k !in ContentOnly(keywords, TitleText(article), ContentText(article))
  {
  }

  /** The source boost adds exactly 2, and only for a non-empty boost list that holds the source. */
  lemma BoostAddsTwo(article: Record, keywords: seq<string>, boostSources: seq<string>)
    ensures RawScore(article, keywords, boostSources) ==
      RawScore(article, keywords, []) + (if Boosted(article, boostSources) then 2 else 0)
    ensures Boosted(article, boostSources) <==>
      |boostSources| > 0 && "source" in article && article["source"].Str? && article["source"].s in boostSources
  {
    if Boosted(article, boostSources) {
      var k :| 0 <= k < |boostSources| && StrValues(boostSources)[k] == Get(article, "source", Null);
      assert boostSources[k] in boostSources;
    }
    if |boostSources| > 0 && "source" in article && article["source"].Str? && article["source"].s in boostSources {
      var k :| 0 <= k < |boostSources| && boostSources[k] == article["source"].s;
      assert StrValues(boostSources)[k] == article["source"];
    }
  }

  /** Matching ignores case: lower-casing the title and content changes nothing. */
  lemma CaseInsensitive(article: Record, keywords: seq<string>, boostSources: seq<string>)
    requires Scorable(article)
    ensures RawScore(article, keywords, boostSources) ==
      RawScore(article["title" := Str(TitleText(article))]["content" := Str(ContentText(article))], keywords, boostSources)
  {
    var a2 := article["title" := Str(TitleText(article))]["content" := Str(ContentText(article))];
    LowerIdempotent(StrField(article, "title", ""));
    LowerIdempotent(StrField(article, "content", ""));
    assert TitleText(a2) == TitleText(article);
    assert ContentText(a2) == ContentText(article);
    assert Get(a2, "source", Null) == Get(article, "source", Null);
  }

  /** Adding a keyword never lowers the score. */
  lemma MoreKeywordsNoLower(article: Record, keywords: seq<string>, k: string, boostSources: seq<string>)
    ensures RawScore(article, keywords + [k], boostSources) >= RawScore(article, keywords, boostSources)
  {
    var title := TitleText(article);
    var content := ContentText(article);
    assert (keywords + [k])[..|keywords|] == keywords;
    assert ContentOnly(keywords, title, content) <= ContentOnly(keywords + [k], title, content);
    SubsetCard(ContentOnly(keywords, title, content), ContentOnly(keywords + [k], title, content));
  }

  lemma SubsetCard<T>(a: set<T>, b: set<T>)
    requires a <= b
    ensures |a| <= |b|
  {
    assert b == a + (b - a);
  }

  // ---------------------------------------------------------------------
  // rank_articles

  function RelevanceKey(s: Scored): int {
    s.relevanceScore
  }

  /** Every article scored against the keywords, with no boost. */
  function ScoreAll(articles: seq<Record>, keywords: seq<string>): (r: seq<Scored>)
    ensures |r| == |articles|
  {
    seq(|articles|, i requires 0 <= i < |articles| => Relevance(articles[i], keywords, []))
  }

  /** The scored articles, sorted by score (stable, highest first), the first `top_n` of them. */
  function Ranked(articles: seq<Record>, keywords: seq<string>, topN: int): seq<Scored> {
    PyTake(SortDesc(ScoreAll(articles, keywords), RelevanceKey), topN)
  }

  /** `rank_articles` */
  method RankArticles(articles: seq<Record>, keywords: seq<string>, topN: int) returns (ranked: seq<Scored>)
    requires forall a :: a in articles ==> Scorable(a)
    ensures ranked == Ranked(articles, keywords, topN)
  {
    var scored: seq<Scored> := [];
    for i := 0 to |articles|
      invariant scored == ScoreAll(articles[..i], keywords)
    {
      var s := CalculateRelevanceScore(articles[i], keywords, []);
      scored := scored + [s];
      assert articles[..i + 1][..i] == articles[..i];
    }
    assert articles[..|articles|] == articles;
    var sorted := SortDesc(scored, RelevanceKey);
    ranked := PyTake(sorted, topN);
  }

  /** The ranking holds at most `top_n` of the scored input articles, highest score first. */
  lemma RankingShape(articles: seq<Record>, keywords: seq<string>, topN: int)
    ensures topN >= 0 ==> |Ranked(articles, keywords, topN)| <= topN
    ensures |Ranked(articles, keywords, topN)| <= |articles|
    ensures SortedDesc(Ranked(articles, keywords, topN), RelevanceKey)
    ensures forall x :: x in Ranked(articles, keywords, topN) ==> x in ScoreAll(articles, keywords)
  {
    TakeSortedShape(ScoreAll(articles, keywords), RelevanceKey, topN);
  }

  /** Whatever the ranking leaves out scores no higher than anything it keeps. */
  lemma RankingTop(articles: seq<Record>, keywords: seq<string>, topN: int)
    ensures forall x, y ::
      (x in ScoreAll(articles, keywords) && x !in Ranked(articles, keywords, topN) && y in Ranked(articles, keywords, topN))
      ==> y.relevanceScore >= x.relevanceScore
  {
    TakeSortedTop(ScoreAll(articles, keywords), RelevanceKey, topN);
  }

  /** Ties keep input order: the ranked articles of any one score are the first
      of the input's articles with that score. */
  lemma RankingStable(articles: seq<Record>, keywords: seq<string>, topN: int, k: int)
    ensures |WithKey(Ranked(articles, keywords, topN), RelevanceKey, k)| <= |WithKey(ScoreAll(articles, keywords), RelevanceKey, k)|
    ensures WithKey(Ranked(articles, keywords, topN), RelevanceKey, k) ==
      WithKey(ScoreAll(articles, keywords), RelevanceKey, k)[..|WithKey(Ranked(articles, keywords, topN), RelevanceKey, k)|]
  {
    TakeSortedStable(ScoreAll(articles, keywords), RelevanceKey, topN, k);
  }

  // ---------------------------------------------------------------------
  // filter_by_threshold

  /** The scores compare as integers (a missing score is 0). */
  predicate ScoresComparable(articles: seq<Record>, field: string) {
    forall a :: a in articles ==> IntOrAbsent(a, field)
  }

  /** `[a for a in articles if a.get(field, 0) >= threshold]` */
  function KeepAtLeast(articles: seq<Record>, field: string, threshold: int): seq<Record> {
    if articles == [] then []
    else
      var a := articles[|articles| - 1];
      KeepAtLeast(articles[..|articles| - 1], field, threshold)
        + (if IntField(a, field, 0) >= threshold then [a] else [])
  }

  /** `filter_by_threshold` on `relevance_score`. */
  function FilterByThreshold(articles: seq<Record>, minScore: int): (r: seq<Record>)
    requires ScoresComparable(articles, "relevance_score")
    ensures forall a :: a in r <==> a in articles && IntField(a, "relevance_score", 0) >= minScore
  {
    KeepMembers(articles, "relevance_score", minScore);
    KeepAtLeast(articles, "relevance_score", minScore)
  }

  /** Exactly the articles at or above the threshold are kept. */
  lemma {:induction false} KeepMembers(articles: seq<Record>, field: string, threshold: int)
    ensures forall a :: a in KeepAtLeast(articles, field, threshold) <==> a in articles && IntField(a, field, 0) >= threshold
  {
    if articles != [] {
      var p := articles[..|articles| - 1];
      KeepMembers(p, field, threshold);
      assert articles == p + [articles[|articles| - 1]];
    }
  }

  /** The kept articles keep their input order. */
  lemma {:induction false} KeepSubsequence(articles: seq<Record>, field: string, threshold: int)
    ensures Subsequence(KeepAtLeast(articles, field, threshold), articles)
  {
    if articles != [] {
      var p := articles[..|articles| - 1];
      var a := articles[|articles| - 1];
      var kp := KeepAtLeast(p, field, threshold);
      KeepSubsequence(p, field, threshold);
      assert articles[..|articles| - 1] == p;
      if IntField(a, field, 0) >= threshold {
        assert KeepAtLeast(articles, field, threshold) == kp + [a];
        assert (kp + [a])[..|kp|] == kp;
        assert Subsequence(kp + [a], articles);
      } else {
        assert KeepAtLeast(articles, field, threshold) == kp;
      }
    }
  }

  /** Filtering twice is filtering once. */
  lemma {:induction false} KeepIdempotent(articles: seq<Record>, field: string, threshold: int)
    ensures KeepAtLeast(KeepAtLeast(articles, field, threshold), field, threshold) == KeepAtLeast(articles, field, threshold)
  {
    if articles != [] {
      var p := articles[..|articles| - 1];
      var a := articles[|articles| - 1];
      var kp := KeepAtLeast(p, field, threshold);
      KeepIdempotent(p, field, threshold);
      if IntField(a, field, 0) >= threshold {
        assert KeepAtLeast(articles, field, threshold) == kp + [a];
        assert (kp + [a])[..|kp|] == kp;
        assert KeepAtLeast(kp + [a], field, threshold) == KeepAtLeast(kp, field, threshold) + [a];
      } else {
        assert KeepAtLeast(articles, field, threshold) == kp;
      }
    }
  }
}
