/** Data validation before storage (app/perception_agent/tools/validation_tools.py):
    per-article and per-summary checks that separate errors, which decide
    validity, from warnings, which do not; and the batch check, which rejects
    repeated urls before validating what is left. */
module Validation {
  import opened Json
  import opened Text
  import opened Counting
  import opened Sorting
  import SchemaValidator

  const ArticleFields: seq<string> := ["title", "url", "source", "summary", "ai_tags"]
  const SummaryFields: seq<string> := ["date", "executive_summary", "highlights", "metrics"]
  const FewSentences := "Summary less than 3 sentences"
  const ShortExecutiveSummary := "Executive summary may be too short"
  const InvalidUrl := "Invalid URL format: "
  const ScoreOutOfRange := "Importance score out of range (1-10): "
  const InvalidDate := "Invalid date format: "

  /** The verdict, errors and warnings of a single-item validator. */
  datatype Validation = Validation(valid: bool, errors: seq<string>, warnings: seq<string>)

  // ---------------------------------------------------------------------
  // Required fields, checked by truthiness.

  /** The entries of `d` with truthy values. */
  function TruthyEntries(d: Record): (t: Record)
    ensures forall k :: k in t <==> Truthy(Get(d, k, Null))
  {
    map k | k in d && Truthy(d[k]) :: d[k]
  }

  /** One message per field whose value is missing or falsy, in field order. */
  function FalsyFields(d: Record, fields: seq<string>): seq<string> {
    SchemaValidator.AbsentFields(TruthyEntries(d), fields)
  }

  /** The field loop of both validators. */
  method RequireTruthy(d: Record, fields: seq<string>) returns (errors: seq<string>)
    ensures errors == FalsyFields(d, fields)
  {
    errors := [];
    for i := 0 to |fields|
      invariant errors == FalsyFields(d, fields[..i])
    {
      assert fields[..i + 1][..i] == fields[..i];
      if !Truthy(Get(d, fields[i], Null)) {
        errors := errors + [SchemaValidator.MissingMessage(fields[i])];
      }
    }
    assert fields[..|fields|] == fields;
  }

  /** Every message names a falsy field; for distinct fields, each missing or
      falsy field is reported exactly once and a truthy one never. */
  lemma FalsyFieldsFacts(d: Record, fields: seq<string>)
    requires Distinct(fields)
    ensures |FalsyFields(d, fields)| <= |fields|
    ensures forall e :: e in FalsyFields(d, fields) ==>
      exists f :: f in fields && !Truthy(Get(d, f, Null)) && e == SchemaValidator.MissingMessage(f)
    ensures forall f :: f in fields ==>
      Occ(FalsyFields(d, fields), SchemaValidator.MissingMessage(f)) == (if Truthy(Get(d, f, Null)) then 0 else 1)
  {
    SchemaValidator.AbsentFieldsFacts(TruthyEntries(d), fields);
  }

  /** The missing-field messages followed by other errors, none of which
      starts like a missing-field message: each falsy field is still
      reported exactly once, and nothing is reported exactly when every
      field is truthy and there is no other error. */
  lemma FalsyFieldsThen(d: Record, fields: seq<string>, tail: seq<string>)
    requires Distinct(fields)
    requires forall e :: e in tail ==> e != [] && e[0] != 'M'
    ensures |FalsyFields(d, fields) + tail| <= |fields| + |tail|
    ensures forall f :: f in fields ==>
      Occ(FalsyFields(d, fields) + tail, SchemaValidator.MissingMessage(f)) == (if Truthy(Get(d, f, Null)) then 0 else 1)
    ensures FalsyFields(d, fields) + tail == [] <==>
      tail == [] && forall f :: f in fields ==> Truthy(Get(d, f, Null))
  {
    var a := FalsyFields(d, fields);
    FalsyFieldsFacts(d, fields);
    if a != [] {
      assert a[0] in a;
    }
    forall f | f in fields
      ensures Occ(a + tail, SchemaValidator.MissingMessage(f)) == (if Truthy(Get(d, f, Null)) then 0 else 1)
    {
      assert multiset(a + tail) == multiset(a) + multiset(tail);
      assert SchemaValidator.MissingMessage(f)[0] == 'M';
    }
  }

  // ---------------------------------------------------------------------
  // validate_article

  lemma ArticleFieldsDistinct()
    ensures Distinct(ArticleFields)
  {
  }

  /** What `validate_article` accepts: a truthy url and a truthy summary are
      strings (they go to `re.match` and `split`), the tags support `len`, and
      a truthy importance score compares with integers. */
  predicate ArticleCheckable(article: Record) {
    (Truthy(Get(article, "url", Str(""))) ==> article["url"].Str?)
    && SizedOrAbsent(article, "ai_tags")
    && (Truthy(Get(article, "summary", Str(""))) ==> article["summary"].Str?)
    && (Truthy(Get(article, "importance_score", Null)) ==>
          article["importance_score"].Int? || article["importance_score"].Bool?)
  }

  /** `re.match(r"^https?://", url)` */
  predicate HttpUrl(url: string) {
    StartsWith(url, "http://") || StartsWith(url, "https://")
  }

  /** A falsy url is not checked; a truthy one must be an http(s) url. */
  predicate UrlAccepted(article: Record) {
    var url := Get(article, "url", Str(""));
    Truthy(url) ==> url.Str? && HttpUrl(url.s)
  }

  /** A falsy score (0 or absent) is not checked; a truthy one must lie in 1..10. */
  predicate ScoreAccepted(article: Record) {
    var score := Get(article, "importance_score", Null);
    Truthy(score) ==> 1 <= AsInt(score) <= 10
  }

  function UrlErrors(article: Record): seq<string> {
    if UrlAccepted(article) then [] else [InvalidUrl + StrField(article, "url", "")]
  }

  /** A rejected score is an integer (`True` is in range, `False` is falsy),
      so it renders as its decimal digits. */
  function ScoreErrors(article: Record): seq<string> {
    if ScoreAccepted(article) then []
    else [ScoreOutOfRange + IntToDecimal(IntField(article, "importance_score", 0))]
  }

  /** The errors of `validate_article`. Like the other message functions here,
      it is stated for every record, and agrees with the source on the records
      the source accepts. */
  function ArticleErrors(article: Record): seq<string> {
    FalsyFields(article, ArticleFields) + UrlErrors(article) + ScoreErrors(article)
  }

  function TagCount(article: Record): nat {
    var tags := Get(article, "ai_tags", List([]));
    if Sized(tags) then Len(tags) else 0
  }

  function ArticleWarnings(article: Record): seq<string> {
    (if TagCount(article) != 4 then ["Expected 4 tags, got " + NatToDecimal(TagCount(article))] else [])
    + (if Truthy(Get(article, "summary", Str(""))) && SplitCount(StrField(article, "summary", ""), ". ") < 3
       then [FewSentences] else [])
  }

  /** `validate_article` */
  method ValidateArticle(article: Record) returns (r: Validation)
    requires ArticleCheckable(article)
    ensures r.errors == ArticleErrors(article)
    ensures r.warnings == ArticleWarnings(article)
    ensures r.valid <==> r.errors == []
  {
    var errors := RequireTruthy(article, ArticleFields);
    var warnings: seq<string> := [];
    var url := Get(article, "url", Str(""));
    if Truthy(url) && !HttpUrl(url.s) {
      errors := errors + [InvalidUrl + url.s];
    }
    assert errors == FalsyFields(article, ArticleFields) + UrlErrors(article);
    var tags := Get(article, "ai_tags", List([]));
    assert Len(tags) == TagCount(article);
    if Len(tags) != 4 {
      warnings := warnings + ["Expected 4 tags, got " + NatToDecimal(Len(tags))];
    }
    var summary := Get(article, "summary", Str(""));
    if Truthy(summary) && SplitCount(summary.s, ". ") < 3 {
      warnings := warnings + [FewSentences];
    }
    assert warnings == ArticleWarnings(article);
    var score := Get(article, "importance_score", Null);
    if Truthy(score) && (AsInt(score) < 1 || AsInt(score) > 10) {
      assert score.Int?;
      assert ScoreErrors(article) == [ScoreOutOfRange + Render(score)];
      errors := errors + [ScoreOutOfRange + Render(score)];
    } else {
      assert ScoreErrors(article) == [];
    }
    r := Validation(|errors| == 0, errors, warnings);
  }

  /** The url and score errors do not look like missing-field messages. */
  lemma OtherArticleErrors(article: Record)
    ensures forall e :: e in UrlErrors(article) + ScoreErrors(article) ==> e != [] && e[0] != 'M'
  {
    var u := UrlErrors(article);
    var s := ScoreErrors(article);
    if u != [] {
      assert u[0][0] == 'I';
    }
    if s != [] {
      assert s[0][0] == 'I';
    }
  }

  /** An article is valid exactly when its five required fields are truthy,
      its url is http(s) and a truthy score lies in 1..10; tag count and
      summary length never matter. There are at most seven errors, and each
      falsy required field is reported exactly once. */
  lemma ArticleValidity(article: Record)
    ensures ArticleErrors(article) == [] <==>
      (forall f :: f in ArticleFields ==> Truthy(Get(article, f, Null)))
      && UrlAccepted(article) && ScoreAccepted(article)
    ensures |ArticleErrors(article)| <= 7
    ensures forall f :: f in ArticleFields ==>
      Occ(ArticleErrors(article), SchemaValidator.MissingMessage(f)) == (if Truthy(Get(article, f, Null)) then 0 else 1)
  {
    var tail := UrlErrors(article) + ScoreErrors(article);
    assert ArticleErrors(article) == FalsyFields(article, ArticleFields) + tail;
    ArticleFieldsDistinct();
    OtherArticleErrors(article);
    FalsyFieldsThen(article, ArticleFields, tail);
  }

  // ---------------------------------------------------------------------
  // validate_batch

  /** What `validate_batch` accepts per article: a url that can be a set
      member, and what `validate_article` accepts. */
  predicate BatchCheckable(article: Record) {
    Hashable(Get(article, "url", Null)) && ArticleCheckable(article)
  }

  /** The url's identity in `seen_urls`; a missing url is None, a member
      like any other. */
  function BatchKey(article: Record): Value {
    HashKey(Get(article, "url", Null))
  }

  function SeenKeys(articles: seq<Record>): set<Value> {
    if articles == [] then {}
    else SeenKeys(articles[..|articles| - 1]) + {BatchKey(articles[|articles| - 1])}
  }

  datatype Reason = DuplicateUrl | Invalid(errors: seq<string>)

  /** An entry of `rejected`. */
  datatype Rejection = Rejection(article: Record, reason: Reason)

  /** The lists and the counter the batch loop builds. */
  datatype BatchRun = BatchRun(
    validArticles: seq<Record>,
    rejected: seq<Rejection>,
    duplicates: nat,
    errors: seq<string>,
    warnings: seq<string>)

  /** The loop's state after `articles`, for a per-article validator whose
      errors and warnings are `errorsOf` and `warningsOf` (`validate_batch`
      uses `validate_article`'s): an article whose url was seen before is
      rejected as a duplicate; any other is validated, kept when it has no
      errors and rejected with them otherwise, and its errors and warnings
      are collected either way. */
  function Batch(articles: seq<Record>, errorsOf: Record -> seq<string>, warningsOf: Record -> seq<string>): BatchRun {
    if articles == [] then BatchRun([], [], 0, [], [])
    else
      var p := articles[..|articles| - 1];
      var a := articles[|articles| - 1];
      var b := Batch(p, errorsOf, warningsOf);
      if BatchKey(a) in SeenKeys(p) then
        b.(rejected := b.rejected + [Rejection(a, DuplicateUrl)], duplicates := b.duplicates + 1)
      else
        var errors := errorsOf(a);
        b.(validArticles := if errors == [] then b.validArticles + [a] else b.validArticles,
           rejected := if errors == [] then b.rejected else b.rejected + [Rejection(a, Invalid(errors))],
           errors := b.errors + errors,
           warnings := b.warnings + warningsOf(a))
  }

  datatype BatchReport = BatchReport(
    valid: bool,
    validatedItems: nat,
    rejectedItems: nat,
    duplicateUrls: nat,
    validationErrors: int,
    errors: seq<string>,
    warnings: seq<string>,
    validArticles: seq<Record>)

  /** `validate_batch` */
  method ValidateBatch(articles: seq<Record>) returns (report: BatchReport)
    requires forall a :: a in articles ==> BatchCheckable(a)
    ensures report.validArticles == Batch(articles, ArticleErrors, ArticleWarnings).validArticles
    ensures report.validatedItems == |report.validArticles|
    ensures report.rejectedItems == |Batch(articles, ArticleErrors, ArticleWarnings).rejected|
    ensures report.duplicateUrls == Batch(articles, ArticleErrors, ArticleWarnings).duplicates
    ensures report.validationErrors == report.rejectedItems - report.duplicateUrls
    ensures report.valid <==> report.rejectedItems == 0
    ensures report.errors == Batch(articles, ArticleErrors, ArticleWarnings).errors && report.warnings == Batch(articles, ArticleErrors, ArticleWarnings).warnings
  {
    var validArticles: seq<Record> := [];
    var rejected: seq<Rejection> := [];
    var allErrors: seq<string> := [];
    var allWarnings: seq<string> := [];
    var seenUrls: set<Value> := {};
    var duplicateCount := 0;
    for i := 0 to |articles|
      invariant seenUrls == SeenKeys(articles[..i])
      invariant BatchRun(validArticles, rejected, duplicateCount, allErrors, allWarnings) == Batch(articles[..i], ArticleErrors, ArticleWarnings)
    {
      var article := articles[i];
      assert articles[..i + 1][..i] == articles[..i];
      assert article in articles;
      var url := Get(article, "url", Null);
      if HashKey(url) in seenUrls {
        duplicateCount := duplicateCount + 1;
        rejected := rejected + [Rejection(article, DuplicateUrl)];
        continue;
      }
      seenUrls := seenUrls + {HashKey(url)};
      var validation := ValidateArticle(article);
      if validation.valid {
        validArticles := validArticles + [article];
      } else {
        rejected := rejected + [Rejection(article, Invalid(validation.errors))];
      }
      allErrors := allErrors + validation.errors;
      allWarnings := allWarnings + validation.warnings;
    }
    assert articles[..|articles|] == articles;
    report := BatchReport(|rejected| == 0, |validArticles|, |rejected|, duplicateCount,
      |rejected| - duplicateCount, allErrors, allWarnings, validArticles);
  }

  lemma {:induction false} SeenKeysMembers(articles: seq<Record>)
    ensures forall k :: k in SeenKeys(articles) <==> exists i :: 0 <= i < |articles| && BatchKey(articles[i]) == k
  {
    if articles != [] {
      var p := articles[..|articles| - 1];
      SeenKeysMembers(p);
      forall k ensures k in SeenKeys(articles) <==> exists i :: 0 <= i < |articles| && BatchKey(articles[i]) == k {
        if k in SeenKeys(p) {
          var i :| 0 <= i < |p| && BatchKey(p[i]) == k;
          assert articles[i] == p[i];
        }
        if exists i :: 0 <= i < |articles| && BatchKey(articles[i]) == k {
          var i :| 0 <= i < |articles| && BatchKey(articles[i]) == k;
          if i < |p| {
            assert articles[i] == p[i];
          }
        }
      }
    }
  }

  /** Every article is either kept or rejected; the duplicates are among the
      rejected, and they number the articles less the distinct urls. */
  lemma {:induction false} BatchAccounting(articles: seq<Record>, errorsOf: Record -> seq<string>, warningsOf: Record -> seq<string>)
    ensures |Batch(articles, errorsOf, warningsOf).validArticles| + |Batch(articles, errorsOf, warningsOf).rejected| == |articles|
    ensures Batch(articles, errorsOf, warningsOf).duplicates <= |Batch(articles, errorsOf, warningsOf).rejected|
    ensures Batch(articles, errorsOf, warningsOf).duplicates == |articles| - |SeenKeys(articles)|
  {
    if articles != [] {
      var p := articles[..|articles| - 1];
      var a := articles[|articles| - 1];
      BatchAccounting(p, errorsOf, warningsOf);
      if BatchKey(a) in SeenKeys(p) {
        assert SeenKeys(articles) == SeenKeys(p);
      } else {
        assert |SeenKeys(p) + {BatchKey(a)}| == |SeenKeys(p)| + 1;
      }
    }
  }

  /** No two articles share a url. */
  predicate DistinctKeys(articles: seq<Record>) {
    forall i, j :: 0 <= i < j < |articles| ==> BatchKey(articles[i]) != BatchKey(articles[j])
  }

  /** The kept articles appear in the input in input order, each has no
      errors of its own, and no two share a url. */
  lemma BatchKept(articles: seq<Record>, errorsOf: Record -> seq<string>, warningsOf: Record -> seq<string>)
    ensures Subsequence(Batch(articles, errorsOf, warningsOf).validArticles, articles)
    ensures forall v :: v in Batch(articles, errorsOf, warningsOf).validArticles ==> v in articles && errorsOf(v) == []
    ensures DistinctKeys(Batch(articles, errorsOf, warningsOf).validArticles)
    ensures forall v :: v in Batch(articles, errorsOf, warningsOf).validArticles ==> BatchKey(v) in SeenKeys(articles)
  {
    BatchKeptOrder(articles, errorsOf, warningsOf);
    BatchKeptClean(articles, errorsOf, warningsOf);
    BatchKeptDistinct(articles, errorsOf, warningsOf);
  }

  lemma {:induction false} BatchKeptOrder(articles: seq<Record>, errorsOf: Record -> seq<string>, warningsOf: Record -> seq<string>)
    ensures Subsequence(Batch(articles, errorsOf, warningsOf).validArticles, articles)
  {
    if articles != [] {
      var p := articles[..|articles| - 1];
      var a := articles[|articles| - 1];
      BatchKeptOrder(p, errorsOf, warningsOf);
      var d := Batch(p, errorsOf, warningsOf).validArticles;
      var r := Batch(articles, errorsOf, warningsOf).validArticles;
      if BatchKey(a) !in SeenKeys(p) && errorsOf(a) == [] {
        assert r == d + [a];
        assert r[..|d|] == d;
      } else {
        assert r == d;
      }
    }
  }

  lemma {:induction false} BatchKeptClean(articles: seq<Record>, errorsOf: Record -> seq<string>, warningsOf: Record -> seq<string>)
    ensures forall v :: v in Batch(articles, errorsOf, warningsOf).validArticles ==> v in articles && errorsOf(v) == []
    ensures forall v :: v in Batch(articles, errorsOf, warningsOf).validArticles ==> BatchKey(v) in SeenKeys(articles)
  {
    if articles != [] {
      var p := articles[..|articles| - 1];
      var a := articles[|articles| - 1];
      BatchKeptClean(p, errorsOf, warningsOf);
      var d := Batch(p, errorsOf, warningsOf).validArticles;
      var r := Batch(articles, errorsOf, warningsOf).validArticles;
      assert SeenKeys(p) <= SeenKeys(articles) && BatchKey(a) in SeenKeys(articles);
      assert forall v :: v in p ==> v in articles;
      if BatchKey(a) !in SeenKeys(p) && errorsOf(a) == [] {
        assert r == d + [a];
      } else {
        assert r == d;
      }
    }
  }

  lemma {:induction false} BatchKeptDistinct(articles: seq<Record>, errorsOf: Record -> seq<string>, warningsOf: Record -> seq<string>)
    ensures DistinctKeys(Batch(articles, errorsOf, warningsOf).validArticles)
  {
    if articles != [] {
      var p := articles[..|articles| - 1];
      var a := articles[|articles| - 1];
      BatchKeptDistinct(p, errorsOf, warningsOf);
      var d := Batch(p, errorsOf, warningsOf).validArticles;
      var r := Batch(articles, errorsOf, warningsOf).validArticles;
      if BatchKey(a) !in SeenKeys(p) && errorsOf(a) == [] {
        BatchKeptClean(p, errorsOf, warningsOf);
        assert r == d + [a];
        forall i, j | 0 <= i < j < |r| ensures BatchKey(r[i]) != BatchKey(r[j]) {
          if j == |d| {
            assert r[i] == d[i] && d[i] in d;
          } else {
            assert r[i] == d[i] && r[j] == d[j];
          }
        }
      } else {
        assert r == d;
      }
    }
  }

  /** An article is kept when its url is new at its position and it has no
      errors. */
  lemma {:induction false} BatchKeepsFirst(articles: seq<Record>, errorsOf: Record -> seq<string>, warningsOf: Record -> seq<string>)
    ensures forall i :: (0 <= i < |articles| && BatchKey(articles[i]) !in SeenKeys(articles[..i])
      && errorsOf(articles[i]) == []) ==> articles[i] in Batch(articles, errorsOf, warningsOf).validArticles
  {
    if articles != [] {
      var n := |articles| - 1;
      var p := articles[..n];
      BatchKeepsFirst(p, errorsOf, warningsOf);
      var d := Batch(p, errorsOf, warningsOf).validArticles;
      var r := Batch(articles, errorsOf, warningsOf).validArticles;
      assert forall v :: v in d ==> v in r;
      forall i | 0 <= i < |articles| && BatchKey(articles[i]) !in SeenKeys(articles[..i])
        && errorsOf(articles[i]) == []
        ensures articles[i] in r
      {
        if i < n {
          assert articles[..i] == p[..i] && articles[i] == p[i];
        } else {
          assert articles[..i] == p;
        }
      }
    }
  }

  /** Every kept article is, at some position of the input, the first with
      its url. */
  lemma {:induction false} BatchKeptFirst(articles: seq<Record>, errorsOf: Record -> seq<string>, warningsOf: Record -> seq<string>)
    ensures forall v :: v in Batch(articles, errorsOf, warningsOf).validArticles ==>
      exists i :: 0 <= i < |articles| && articles[i] == v && BatchKey(v) !in SeenKeys(articles[..i])
  {
    if articles != [] {
      var n := |articles| - 1;
      var p := articles[..n];
      var a := articles[n];
      BatchKeptFirst(p, errorsOf, warningsOf);
      var d := Batch(p, errorsOf, warningsOf).validArticles;
      var r := Batch(articles, errorsOf, warningsOf).validArticles;
      forall v | v in r
        ensures exists i :: 0 <= i < |articles| && articles[i] == v && BatchKey(v) !in SeenKeys(articles[..i])
      {
        if v in d {
          var i :| 0 <= i < |p| && p[i] == v && BatchKey(v) !in SeenKeys(p[..i]);
          assert articles[..i] == p[..i] && articles[i] == p[i];
        } else {
          assert v == a && articles[..n] == p;
        }
      }
    }
  }

  /** Extending distinct-url input by one article keeps the urls distinct
      exactly when its url is new. */
  lemma DistinctKeysSnoc(articles: seq<Record>)
    requires articles != []
    ensures DistinctKeys(articles) <==>
      DistinctKeys(articles[..|articles| - 1]) && BatchKey(articles[|articles| - 1]) !in SeenKeys(articles[..|articles| - 1])
  {
    var n := |articles| - 1;
    var p := articles[..n];
    SeenKeysMembers(p);
    assert forall i :: 0 <= i < n ==> p[i] == articles[i];
  }

  /** The batch is valid exactly when no two articles share a url and no
      article has errors; a single duplicate fails it. */
  lemma {:induction false} BatchValidity(articles: seq<Record>, errorsOf: Record -> seq<string>, warningsOf: Record -> seq<string>)
    ensures Batch(articles, errorsOf, warningsOf).rejected == [] <==>
      DistinctKeys(articles) && forall a :: a in articles ==> errorsOf(a) == []
  {
    if articles != [] {
      var n := |articles| - 1;
      var p := articles[..n];
      var a := articles[n];
      BatchValidity(p, errorsOf, warningsOf);
      DistinctKeysSnoc(articles);
      assert articles == p + [a];
      assert forall x :: x in articles <==> x in p || x == a;
    }
  }

  // ---------------------------------------------------------------------
  // validate_daily_summary

  /** What `validate_daily_summary` accepts: a truthy date and a truthy
      executive summary are strings (they go to `strptime` and `split`), and
      the highlights support `len`. */
  predicate SummaryCheckable(summary: Record) {
    (Truthy(Get(summary, "date", Null)) ==> summary["date"].Str?)
    && SizedOrAbsent(summary, "highlights")
    && (Truthy(Get(summary, "executive_summary", Str(""))) ==> summary["executive_summary"].Str?)
  }

  /** A falsy date is not checked; a truthy one must parse as `%Y-%m-%d`,
      which `isValidDate` decides. */
  predicate DateAccepted(summary: Record, isValidDate: string -> bool) {
    var date := Get(summary, "date", Null);
    Truthy(date) ==> date.Str? && isValidDate(date.s)
  }

  function SummaryErrors(summary: Record, isValidDate: string -> bool): seq<string> {
    FalsyFields(summary, SummaryFields)
    + (if DateAccepted(summary, isValidDate) then [] else [InvalidDate + StrField(summary, "date", "")])
  }

  function HighlightCount(summary: Record): nat {
    var highlights := Get(summary, "highlights", List([]));
    if Sized(highlights) then Len(highlights) else 0
  }

  function SummaryWarnings(summary: Record): seq<string> {
    (if HighlightCount(summary) < 3
     then ["Only " + NatToDecimal(HighlightCount(summary)) + " highlights (recommend 5-7)"] else [])
    + (if Truthy(Get(summary, "executive_summary", Str(""))) && WordCount(StrField(summary, "executive_summary", "")) < 100
       then [ShortExecutiveSummary] else [])
  }

  /** `validate_daily_summary`; `isValidDate` stands for the `strptime` check. */
  method ValidateDailySummary(summary: Record, isValidDate: string -> bool) returns (r: Validation)
    requires SummaryCheckable(summary)
    ensures r.errors == SummaryErrors(summary, isValidDate)
    ensures r.warnings == SummaryWarnings(summary)
    ensures r.valid <==> r.errors == []
  {
    var errors := RequireTruthy(summary, SummaryFields);
    var warnings: seq<string> := [];
    var date := Get(summary, "date", Null);
    if Truthy(date) && !isValidDate(date.s) {
      errors := errors + [InvalidDate + date.s];
    }
    var highlights := Get(summary, "highlights", List([]));
    if Len(highlights) < 3 {
      warnings := warnings + ["Only " + NatToDecimal(Len(highlights)) + " highlights (recommend 5-7)"];
    }
    var execSummary := Get(summary, "executive_summary", Str(""));
    if Truthy(execSummary) && WordCount(execSummary.s) < 100 {
      warnings := warnings + [ShortExecutiveSummary];
    }
    r := Validation(|errors| == 0, errors, warnings);
  }

  /** A summary is valid exactly when its four required fields are truthy and
      its date parses; the highlight count and summary length never matter.
      Each falsy required field is reported exactly once. */
  lemma SummaryValidity(summary: Record, isValidDate: string -> bool)
    ensures SummaryErrors(summary, isValidDate) == [] <==>
      (forall f :: f in SummaryFields ==> Truthy(Get(summary, f, Null))) && DateAccepted(summary, isValidDate)
    ensures |SummaryErrors(summary, isValidDate)| <= 5
    ensures forall f :: f in SummaryFields ==>
      Occ(SummaryErrors(summary, isValidDate), SchemaValidator.MissingMessage(f)) == (if Truthy(Get(summary, f, Null)) then 0 else 1)
  {
    var x := if DateAccepted(summary, isValidDate) then [] else [InvalidDate + StrField(summary, "date", "")];
    assert SummaryErrors(summary, isValidDate) == FalsyFields(summary, SummaryFields) + x;
    assert Distinct(SummaryFields);
    if x != [] {
      assert x[0][0] == 'I';
    }
    FalsyFieldsThen(summary, SummaryFields, x);
  }

  // ---------------------------------------------------------------------
  // check_data_quality

  /** `check_data_quality`: the verdict of the validator for `dataType`, and
      true for any other type. */
  method CheckDataQuality(data: Value, dataType: string, isValidDate: string -> bool) returns (ok: bool)
    requires dataType == "article" ==> data.Obj? && ArticleCheckable(data.fields)
    requires dataType == "summary" ==> data.Obj? && SummaryCheckable(data.fields)
    ensures dataType == "article" ==> (ok <==> ArticleErrors(data.fields) == [])
    ensures dataType == "summary" ==> (ok <==> SummaryErrors(data.fields, isValidDate) == [])
    ensures dataType != "article" && dataType != "summary" ==> ok
  {
    var result: Validation;
    if dataType == "article" {
      result := ValidateArticle(data.fields);
    } else if dataType == "summary" {
      result := ValidateDailySummary(data.fields, isValidDate);
    } else {
      return true;
    }
    ok := result.valid;
  }
}
