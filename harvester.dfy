/** The source harvester (app/perception_agent/tools/agent_1_tools.py): the
    enabled-row filter that loads sources, the normalisation of raw feed items
    into articles, and the loop that harvests every source. The RSS fetch is a
    parameter: whatever items the feed service returns for a request. */
module Harvester {
  import opened Json
  import opened Text

  /** A content source as the loader builds it. */
  datatype Source = Source(sourceId: string, name: string, kind: string, url: string, category: string, enabled: bool)

  /** A row of the source table: column name to cell text. */
  type Row = map<string, string>

  /** The columns a loaded source copies. */
  const SourceColumns: seq<string> := ["source_id", "name", "type", "url", "category"]

  /** `row.get('enabled', '').lower() == 'true'` */
  predicate IsEnabled(row: Row) {
    Lower(if "enabled" in row then row["enabled"] else "") == "true"
  }

  predicate HasColumns(row: Row) {
    forall c :: c in SourceColumns ==> c in row
  }

  function ToSource(row: Row): Source
    requires HasColumns(row)
  {
    Source(row["source_id"], row["name"], row["type"], row["url"], row["category"], true)
  }

  /** The sources of the enabled rows, in row order. */
  function EnabledSources(rows: seq<Row>): seq<Source>
    requires forall i :: 0 <= i < |rows| && IsEnabled(rows[i]) ==> HasColumns(rows[i])
  {
    if rows == [] then []
    else
      var last := rows[|rows| - 1];
      EnabledSources(rows[..|rows| - 1]) + (if IsEnabled(last) then [ToSource(last)] else [])
  }

  /** No enabled row lacks a column the loader reads; otherwise the lookup raises
      KeyError, which the loader catches, returning no sources at all. */
  predicate Loadable(rows: seq<Row>) {
    forall i :: 0 <= i < |rows| && IsEnabled(rows[i]) ==> HasColumns(rows[i])
  }

  /** What `load_sources_from_csv` returns for the rows of the table. */
  function LoadedSources(rows: seq<Row>): seq<Source> {
    if Loadable(rows) then EnabledSources(rows) else []
  }

  function CountEnabled(rows: seq<Row>): nat {
    if rows == [] then 0 else CountEnabled(rows[..|rows| - 1]) + (if IsEnabled(rows[|rows| - 1]) then 1 else 0)
  }

  /** Exactly the enabled rows become sources, one each, all marked enabled. */
  lemma {:induction false} EnabledSourcesFacts(rows: seq<Row>)
    requires Loadable(rows)
    ensures |EnabledSources(rows)| == CountEnabled(rows)
    ensures forall s :: s in EnabledSources(rows) ==> s.enabled
    ensures forall s :: s in EnabledSources(rows) ==>
      exists i :: 0 <= i < |rows| && IsEnabled(rows[i]) && HasColumns(rows[i]) && s == ToSource(rows[i])
  {
    if rows != [] {
      var p := rows[..|rows| - 1];
      assert Loadable(p) by {
        forall i | 0 <= i < |p| && IsEnabled(p[i]) ensures HasColumns(p[i]) {
          assert p[i] == rows[i];
        }
      }
      EnabledSourcesFacts(p);
      forall s | s in EnabledSources(rows)
        ensures exists i :: 0 <= i < |rows| && IsEnabled(rows[i]) && HasColumns(rows[i]) && s == ToSource(rows[i])
      {
        if s in EnabledSources(p) {
          var i :| 0 <= i < |p| && IsEnabled(p[i]) && HasColumns(p[i]) && s == ToSource(p[i]);
          assert rows[i] == p[i];
        } else {
          assert s == ToSource(rows[|rows| - 1]);
        }
      }
    }
  }

  /** The row loop of `load_sources_from_csv` (the CSV file's rows are the input). */
  method LoadSourcesFromRows(rows: seq<Row>) returns (sources: seq<Source>)
    ensures sources == LoadedSources(rows)
  {
    sources := [];
    for i := 0 to |rows|
      invariant Loadable(rows[..i])
      invariant sources == EnabledSources(rows[..i])
    {
      var row := rows[i];
      assert rows[..i + 1][..i] == rows[..i];
      if IsEnabled(row) {
        if !HasColumns(row) {
          assert !Loadable(rows) by {
            assert IsEnabled(rows[i]) && !HasColumns(rows[i]);
          }
          return [];
        }
        sources := sources + [ToSource(row)];
      }
      assert Loadable(rows[..i + 1]) by {
        var q := rows[..i + 1];
        forall j | 0 <= j < i + 1 && IsEnabled(q[j]) ensures HasColumns(q[j]) {
          if j < i {
            assert q[j] == rows[..i][j];
          }
        }
      }
    }
    assert rows[..|rows|] == rows;
  }

  // ---------------------------------------------------------------------
  // normalize_article

  /** The fields of a normalized article. */
  const ArticleFields: set<string> :=
    {"title", "url", "source_id", "category", "published_at", "summary", "content",
     "content_snippet", "author", "categories"}

  /** `raw.get("raw_content") or raw.get("summary") or raw.get("content_snippet")` */
  function ContentOf(raw: Record): Value {
    var rc := Get(raw, "raw_content", Null);
    var sm := Get(raw, "summary", Null);
    if Truthy(rc) then rc else if Truthy(sm) then sm else Get(raw, "content_snippet", Null)
  }

  /** `normalize_article`: a raw feed item as a normalized article. */
  function NormalizeArticle(raw: Record, sourceId: string, category: Value): (r: Record)
    ensures "source_id" in r && r["source_id"] == Str(sourceId)
    ensures "category" in r && r["category"] == category
  {
    map[
      "title" := Get(raw, "title", Str("Untitled")),
      "url" := Get(raw, "url", Str("")),
      "source_id" := Str(sourceId),
      "category" := category,
      "published_at" := Get(raw, "published_at", Null),
      "summary" := Get(raw, "summary", Null),
      "content" := ContentOf(raw),
      "content_snippet" := Get(raw, "content_snippet", Null),
      "author" := Get(raw, "author", Null),
      "categories" := Get(raw, "categories", List([]))
    ]
  }

  /** Normalization is total and yields the ten fields whatever the item lacks:
      the source fields are the arguments, defaults apply only to absent keys,
      and a present value is copied as is, even a falsy one. */
  lemma NormalizeArticleFields(raw: Record, sourceId: string, category: Value)
    ensures var a := NormalizeArticle(raw, sourceId, category);
      a.Keys == ArticleFields
      && a["source_id"] == Str(sourceId) && a["category"] == category
      && a["title"] == (if "title" in raw then raw["title"] else Str("Untitled"))
      && a["url"] == (if "url" in raw then raw["url"] else Str(""))
      && a["categories"] == (if "categories" in raw then raw["categories"] else List([]))
      && (forall f :: f in {"published_at", "summary", "content_snippet", "author"} ==>
            a[f] == (if f in raw then raw[f] else Null))
  {
    NormalizedKeys(raw, sourceId, category);
  }

  lemma NormalizedKeys(raw: Record, sourceId: string, category: Value)
    ensures NormalizeArticle(raw, sourceId, category).Keys == ArticleFields
  {
  }

  /** The content is the first truthy one of `raw_content`, `summary` and
      `content_snippet`; when none is truthy it is `content_snippet` as it is (or None). */
  lemma NormalizeArticleContent(raw: Record, sourceId: string, category: Value)
    ensures var c := NormalizeArticle(raw, sourceId, category)["content"];
      (Truthy(Get(raw, "raw_content", Null)) ==> c == raw["raw_content"])
      && (!Truthy(Get(raw, "raw_content", Null)) && Truthy(Get(raw, "summary", Null)) ==> c == raw["summary"])
      && (!Truthy(Get(raw, "raw_content", Null)) && !Truthy(Get(raw, "summary", Null)) ==>
            c == Get(raw, "content_snippet", Null))
      && (Truthy(c) <==> Truthy(Get(raw, "raw_content", Null)) || Truthy(Get(raw, "summary", Null))
                         || Truthy(Get(raw, "content_snippet", Null)))
  {
  }

  // ---------------------------------------------------------------------
  // harvest_all_sources

  /** The feed service: (feed_url, time_window_hours, max_items, request_id) to the items it returns. */
  type Fetcher = (string, int, int, string) -> seq<Record>

  datatype Harvest = Harvest(articles: seq<Record>, sourceCount: nat, totalFetched: nat)

  function Fetched(s: Source, fetch: Fetcher, timeWindowHours: int, maxItems: int): seq<Record> {
    fetch(s.url, timeWindowHours, maxItems, "harvest_" + s.sourceId)
  }

  function NormalizeAll(raws: seq<Record>, s: Source): (r: seq<Record>)
    ensures |r| == |raws|
  {
    seq(|raws|, i requires 0 <= i < |raws| => NormalizeArticle(raws[i], s.sourceId, Str(s.category)))
  }

  /** The normalized items of the RSS sources, source by source. */
  function Harvested(sources: seq<Source>, fetch: Fetcher, timeWindowHours: int, maxItems: int): seq<Record> {
    if sources == [] then []
    else
      var last := sources[|sources| - 1];
      Harvested(sources[..|sources| - 1], fetch, timeWindowHours, maxItems)
        + (if last.kind == "rss" then NormalizeAll(Fetched(last, fetch, timeWindowHours, maxItems), last) else [])
  }

  /** The number of items the RSS sources returned. */
  function FetchedCount(sources: seq<Source>, fetch: Fetcher, timeWindowHours: int, maxItems: int): nat {
    if sources == [] then 0
    else
      var last := sources[|sources| - 1];
      FetchedCount(sources[..|sources| - 1], fetch, timeWindowHours, maxItems)
        + (if last.kind == "rss" then |Fetched(last, fetch, timeWindowHours, maxItems)| else 0)
  }

  /** `harvest_all_sources`: loads the sources from the rows and normalizes what
      each RSS source returns. */
  method HarvestAllSources(rows: seq<Row>, fetch: Fetcher, timeWindowHours: int, maxItemsPerSource: int)
    returns (h: Harvest)
    ensures h.sourceCount == |LoadedSources(rows)|
    ensures h.articles == Harvested(LoadedSources(rows), fetch, timeWindowHours, maxItemsPerSource)
    ensures h.totalFetched == FetchedCount(LoadedSources(rows), fetch, timeWindowHours, maxItemsPerSource)
  {
    var sources := LoadSourcesFromRows(rows);
    if sources == [] {
      return Harvest([], 0, 0);
    }
    var all: seq<Record> := [];
    var total: nat := 0;
    for i := 0 to |sources|
      invariant all == Harvested(sources[..i], fetch, timeWindowHours, maxItemsPerSource)
      invariant total == FetchedCount(sources[..i], fetch, timeWindowHours, maxItemsPerSource)
    {
      var source := sources[i];
      assert sources[..i + 1][..i] == sources[..i];
      if source.kind == "rss" {
        var raws := fetch(source.url, timeWindowHours, maxItemsPerSource, "harvest_" + source.sourceId);
        all := AppendNormalized(all, raws, source);
        total := total + |raws|;
      }
    }
    assert sources[..|sources|] == sources;
    h := Harvest(all, |sources|, total);
  }

  /** The inner loop of `harvest_all_sources`: appends each fetched item,
      normalized, to the articles gathered so far. */
  method AppendNormalized(all: seq<Record>, raws: seq<Record>, source: Source) returns (r: seq<Record>)
    ensures r == all + NormalizeAll(raws, source)
  {
    r := all;
    for j := 0 to |raws|
      invariant r == all + NormalizeAll(raws[..j], source)
    {
      r := r + [NormalizeArticle(raws[j], source.sourceId, Str(source.category))];
      assert NormalizeAll(raws[..j + 1], source) == NormalizeAll(raws[..j], source) + [NormalizeArticle(raws[j], source.sourceId, Str(source.category))];
    }
    assert raws[..|raws|] == raws;
  }

  /** One article per fetched item: `len(articles) == total_fetched`. */
  lemma {:induction false} HarvestedLength(sources: seq<Source>, fetch: Fetcher, timeWindowHours: int, maxItems: int)
    ensures |Harvested(sources, fetch, timeWindowHours, maxItems)| == FetchedCount(sources, fetch, timeWindowHours, maxItems)
  {
    if sources != [] {
      HarvestedLength(sources[..|sources| - 1], fetch, timeWindowHours, maxItems);
    }
  }

  /** Every harvested article comes from an RSS source, carries its id and
      category, and is the normalization of an item that source's feed returned. */
  lemma {:induction false} HarvestedFromRss(sources: seq<Source>, fetch: Fetcher, timeWindowHours: int, maxItems: int)
    ensures forall a :: a in Harvested(sources, fetch, timeWindowHours, maxItems) ==>
      exists s, raw :: (s in sources && s.kind == "rss" && raw in Fetched(s, fetch, timeWindowHours, maxItems) &&
        a == NormalizeArticle(raw, s.sourceId, Str(s.category)))
  {
    if sources != [] {
      var p := sources[..|sources| - 1];
      var last := sources[|sources| - 1];
      HarvestedFromRss(p, fetch, timeWindowHours, maxItems);
      forall a | a in Harvested(sources, fetch, timeWindowHours, maxItems)
        ensures exists s, raw :: (s in sources && s.kind == "rss" && raw in Fetched(s, fetch, timeWindowHours, maxItems) &&
          a == NormalizeArticle(raw, s.sourceId, Str(s.category)))
      {
        if a in Harvested(p, fetch, timeWindowHours, maxItems) {
          var s, raw :| s in p && s.kind == "rss" && raw in Fetched(s, fetch, timeWindowHours, maxItems) &&
            a == NormalizeArticle(raw, s.sourceId, Str(s.category));
          assert s in sources;
        } else {
          var raws := Fetched(last, fetch, timeWindowHours, maxItems);
          assert last.kind == "rss" && a in NormalizeAll(raws, last);
          var k :| 0 <= k < |raws| && NormalizeAll(raws, last)[k] == a;
          assert raws[k] in raws;
        }
      }
    }
  }

  /** Sources of other kinds contribute nothing. */
  lemma NonRssContributesNothing(sources: seq<Source>, s: Source, fetch: Fetcher, timeWindowHours: int, maxItems: int)
    requires s.kind != "rss"
    ensures Harvested(sources + [s], fetch, timeWindowHours, maxItems) == Harvested(sources, fetch, timeWindowHours, maxItems)
    ensures FetchedCount(sources + [s], fetch, timeWindowHours, maxItems) == FetchedCount(sources, fetch, timeWindowHours, maxItems)
  {
    assert (sources + [s])[..|sources|] == sources;
  }
}
