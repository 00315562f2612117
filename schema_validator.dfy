/** The schema and quality validators (app/perception_agent/tools/agent_6_tools.py):
    required keys by presence, two type checks, and a length-based quality
    score. */
module SchemaValidator {
  import opened Json
  import opened Counting

  const ArticleRequired: seq<string> := ["title", "url", "source_id"]
  const BriefRequired: seq<string> := ["date", "executive_summary", "highlights"]
  const UrlNotString := "Field 'url' must be a string"
  const HighlightsNotList := "Field 'highlights' must be a list"
  const ContentTooShort := "Content too short (< 50 characters)"
  const TitleTooShort := "Title too short (< 10 characters)"

  /** The pass/fail verdict and the error messages of a validator. */
  datatype SchemaCheck = SchemaCheck(valid: bool, errors: seq<string>)

  function MissingMessage(field: string): string {
    "Missing required field: " + field
  }

  /** Different fields are reported with different messages. */
  lemma MissingMessageInjective(f: string, g: string)
    requires MissingMessage(f) == MissingMessage(g)
    ensures f == g
  {
    var n := |"Missing required field: "|;
    assert MissingMessage(f)[n..] == f;
    assert MissingMessage(g)[n..] == g;
  }

  /** No missing-field message is a type-error message. */
  lemma MissingMessageNotTypeError(f: string)
    ensures MissingMessage(f) != UrlNotString && MissingMessage(f) != HighlightsNotList
  {
    assert MissingMessage(f)[0] == 'M';
    assert UrlNotString[0] == 'F' && HighlightsNotList[0] == 'F';
  }

  // ---------------------------------------------------------------------
  // Required keys, checked by presence.

  /** One message per field that is not a key of `d`, in field order. */
  function AbsentFields(d: Record, fields: seq<string>): seq<string> {
    if fields == [] then []
    else
      var f := fields[|fields| - 1];
      AbsentFields(d, fields[..|fields| - 1]) + (if f in d then [] else [MissingMessage(f)])
  }

  /** The field loop of both validators. */
  method RequireFields(d: Record, fields: seq<string>) returns (errors: seq<string>)
    ensures errors == AbsentFields(d, fields)
  {
    errors := [];
    for i := 0 to |fields|
      invariant errors == AbsentFields(d, fields[..i])
    {
      assert fields[..i + 1][..i] == fields[..i];
      if fields[i] !in d {
        errors := errors + [MissingMessage(fields[i])];
      }
    }
    assert fields[..|fields|] == fields;
  }

  /** Every message names an absent field; for distinct fields, each absent
      field is reported exactly once and a present one never, whatever its
      value. */
  lemma {:induction false} AbsentFieldsFacts(d: Record, fields: seq<string>)
    requires Distinct(fields)
    ensures |AbsentFields(d, fields)| <= |fields|
    ensures forall e :: e in AbsentFields(d, fields) ==> exists f :: f in fields && f !in d && e == MissingMessage(f)
    ensures forall f :: f in fields ==> Occ(AbsentFields(d, fields), MissingMessage(f)) == (if f in d then 0 else 1)
  {
    if fields != [] {
      var p := fields[..|fields| - 1];
      var g := fields[|fields| - 1];
      assert fields == p + [g];
      assert Distinct(p) by {
        assert forall i :: 0 <= i < |p| ==> p[i] == fields[i];
      }
      AbsentFieldsFacts(d, p);
      var a := AbsentFields(d, p);
      var x := if g in d then [] else [MissingMessage(g)];
      assert AbsentFields(d, fields) == a + x;
      assert g !in p;
      forall f | f in fields
        ensures Occ(a + x, MissingMessage(f)) == (if f in d then 0 else 1)
      {
        assert multiset(a + x) == multiset(a) + multiset(x);
        if f == g {
          if MissingMessage(g) in a {
            var h :| h in p && h !in d && MissingMessage(g) == MissingMessage(h);
            MissingMessageInjective(g, h);
          }
        } else {
          assert f in p;
          if MissingMessage(f) == MissingMessage(g) {
            MissingMessageInjective(f, g);
          }
        }
      }
    }
  }

  /** The messages both validators produce: the missing-key messages, then
      one type error when `bad` holds. */
  function Checked(d: Record, fields: seq<string>, typeError: string, bad: bool): seq<string> {
    AbsentFields(d, fields) + (if bad then [typeError] else [])
  }

  lemma ChecksFacts(d: Record, fields: seq<string>, typeError: string, bad: bool)
    requires Distinct(fields)
    requires typeError == UrlNotString || typeError == HighlightsNotList
    ensures |Checked(d, fields, typeError, bad)| <= |fields| + 1
    ensures forall f :: f in fields ==> Occ(Checked(d, fields, typeError, bad), MissingMessage(f)) == (if f in d then 0 else 1)
    ensures typeError in Checked(d, fields, typeError, bad) <==> bad
    ensures bad ==> Checked(d, fields, typeError, bad)[|Checked(d, fields, typeError, bad)| - 1] == typeError
    ensures Checked(d, fields, typeError, bad) == [] <==> (forall f :: f in fields ==> f in d) && !bad
  {
    var a := AbsentFields(d, fields);
    var x := if bad then [typeError] else [];
    assert Checked(d, fields, typeError, bad) == a + x;
    AbsentFieldsFacts(d, fields);
    if a != [] {
      assert a[0] in a;
      var f :| f in fields && f !in d && a[0] == MissingMessage(f);
    }
    if typeError in a {
      var f :| f in fields && f !in d && typeError == MissingMessage(f);
      MissingMessageNotTypeError(f);
    }
    forall f | f in fields
      ensures Occ(a + x, MissingMessage(f)) == (if f in d then 0 else 1)
    {
      MissingMessageNotTypeError(f);
      assert multiset(a + x) == multiset(a) + multiset(x);
    }
    if a == [] {
      forall f | f in fields ensures f in d {
        assert Occ(a, MissingMessage(f)) == 0;
      }
    }
  }

  // ---------------------------------------------------------------------
  // validate_article_schema

  function ArticleSchemaErrors(article: Record): seq<string> {
    Checked(article, ArticleRequired, UrlNotString, "url" in article && !article["url"].Str?)
  }

  /** `validate_article_schema` */
  method ValidateArticleSchema(article: Record) returns (r: SchemaCheck)
    ensures r.errors == ArticleSchemaErrors(article)
    ensures r.valid <==> r.errors == []
  {
    var errors := RequireFields(article, ArticleRequired);
    if "url" in article && !article["url"].Str? {
      errors := errors + [UrlNotString];
    }
    r := SchemaCheck(|errors| == 0, errors);
  }

  /** At most four errors: one per absent key (a present but empty value is
      accepted) and, last, the type error, which a present non-string url
      alone causes. */
  lemma ArticleSchemaFacts(article: Record)
    ensures |ArticleSchemaErrors(article)| <= 4
    ensures forall f :: f in ArticleRequired ==>
      Occ(ArticleSchemaErrors(article), MissingMessage(f)) == (if f in article then 0 else 1)
    ensures UrlNotString in ArticleSchemaErrors(article) <==> "url" in article && !article["url"].Str?
    ensures UrlNotString in ArticleSchemaErrors(article) ==>
      ArticleSchemaErrors(article)[|ArticleSchemaErrors(article)| - 1] == UrlNotString
    ensures ArticleSchemaErrors(article) == [] <==>
      "title" in article && "url" in article && "source_id" in article && article["url"].Str?
  {
    ChecksFacts(article, ArticleRequired, UrlNotString, "url" in article && !article["url"].Str?);
  }

  /** `detect_duplicates`: the stub finds none. */
  function DetectDuplicates(articles: seq<Record>): (r: seq<Record>)
    ensures r == []
  {
    []
  }

  // ---------------------------------------------------------------------
  // verify_data_quality

  datatype QualityCheck = QualityCheck(qualityScore: int, issues: seq<string>)

  /** Content and title must support `len` (both default to ""). */
  predicate QualityCheckable(article: Record) {
    SizedOrAbsent(article, "content") && SizedOrAbsent(article, "title")
  }

  function FieldLength(article: Record, key: string): nat
    requires SizedOrAbsent(article, key)
  {
    Len(Get(article, key, Str("")))
  }

  /** `verify_data_quality`: 3 off for short content, 2 off for a short title. */
  method VerifyDataQuality(article: Record) returns (r: QualityCheck)
    requires QualityCheckable(article)
    ensures r.qualityScore == 10 - (if FieldLength(article, "content") < 50 then 3 else 0)
                                 - (if FieldLength(article, "title") < 10 then 2 else 0)
    ensures r.qualityScore in {5, 7, 8, 10} && 0 <= r.qualityScore <= 10
    ensures r.issues == [] <==> r.qualityScore == 10
    ensures ContentTooShort in r.issues <==> FieldLength(article, "content") < 50
    ensures TitleTooShort in r.issues <==> FieldLength(article, "title") < 10
    ensures |r.issues| <= 2 && forall e :: e in r.issues ==> e == ContentTooShort || e == TitleTooShort
    ensures |r.issues| == 2 ==> r.issues == [ContentTooShort, TitleTooShort]
  {
    var issues: seq<string> := [];
    var score := 10;
    var content := Get(article, "content", Str(""));
    if Len(content) < 50 {
      issues := issues + [ContentTooShort];
      score := score - 3;
    }
    var title := Get(article, "title", Str(""));
    if Len(title) < 10 {
      issues := issues + [TitleTooShort];
      score := score - 2;
    }
    r := QualityCheck(if score < 0 then 0 else score, issues);
  }

  // ---------------------------------------------------------------------
  // validate_brief_structure

  function BriefSchemaErrors(brief: Record): seq<string> {
    Checked(brief, BriefRequired, HighlightsNotList, "highlights" in brief && !brief["highlights"].List?)
  }

  /** `validate_brief_structure` */
  method ValidateBriefStructure(brief: Record) returns (r: SchemaCheck)
    ensures r.errors == BriefSchemaErrors(brief)
    ensures r.valid <==> r.errors == []
  {
    var errors := RequireFields(brief, BriefRequired);
    if "highlights" in brief && !brief["highlights"].List? {
      errors := errors + [HighlightsNotList];
    }
    r := SchemaCheck(|errors| == 0, errors);
  }

  /** At most four errors: one per absent key and, last, the type error,
      which only a present non-list `highlights` causes. */
  lemma BriefSchemaFacts(brief: Record)
    ensures |BriefSchemaErrors(brief)| <= 4
    ensures forall f :: f in BriefRequired ==>
      Occ(BriefSchemaErrors(brief), MissingMessage(f)) == (if f in brief then 0 else 1)
    ensures HighlightsNotList in BriefSchemaErrors(brief) <==> "highlights" in brief && !brief["highlights"].List?
    ensures HighlightsNotList in BriefSchemaErrors(brief) ==>
      BriefSchemaErrors(brief)[|BriefSchemaErrors(brief)| - 1] == HighlightsNotList
    ensures BriefSchemaErrors(brief) == [] <==>
      "date" in brief && "executive_summary" in brief && "highlights" in brief && brief["highlights"].List?
  {
    ChecksFacts(brief, BriefRequired, HighlightsNotList, "highlights" in brief && !brief["highlights"].List?);
  }

  // ---------------------------------------------------------------------
  // generate_url_hash

  /** `generate_url_hash`: the hex digest of the url, with the digest function
      (SHA-256 of the UTF-8 bytes) passed in. */
  function GenerateUrlHash(url: string, sha256Hex: string -> string): (r: string)
    ensures r == sha256Hex(url)
  {
    sha256Hex(url)
  }
}
