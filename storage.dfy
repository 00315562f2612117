/** The storage manager (app/perception_agent/tools/agent_7_tools.py): URL
    deduplication before storage and batched writes. The Firestore writes
    themselves are stubs in the source, which report that nothing was stored. */
module Storage {
  import opened Json
  import opened Wrappers
  import opened Sorting

  /** The result of one batch write. */
  datatype StoreResult = StoreResult(articlesStored: nat, errors: seq<Value>)

  /** The result of writing a brief. */
  datatype BriefStoreResult = BriefStoreResult(briefStored: bool, briefId: Option<string>, error: Option<string>)

  /** The result of finalizing an ingestion run record. */
  datatype RunLogResult = RunLogResult(runFinalized: bool, error: Option<string>)

  /** `store_articles`: the stub stores nothing and reports no failed write. */
  function StoreArticles(articles: seq<Record>): (r: StoreResult)
    ensures r.articlesStored == 0 && r.errors == []
  {
    StoreResult(0, [])
  }

  /** `store_brief`: the stub stores nothing and says it is not implemented. */
  function StoreBrief(brief: Record): (r: BriefStoreResult)
    ensures !r.briefStored && r.briefId.None? && r.error == Some("Not implemented")
  {
    BriefStoreResult(false, None, Some("Not implemented"))
  }

  /** `log_ingestion_run`: the stub finalizes nothing. */
  function LogIngestionRun(runId: string, stats: Record): (r: RunLogResult)
    ensures !r.runFinalized && r.error == Some("Not implemented")
  {
    RunLogResult(false, Some("Not implemented"))
  }

  // ---------------------------------------------------------------------
  // deduplicate_by_url

  function UrlOf(a: Record): Value {
    Get(a, "url", Null)
  }

  /** Every truthy url can be put in a set. */
  predicate UrlsHashable(articles: seq<Record>) {
    forall i :: 0 <= i < |articles| && Truthy(UrlOf(articles[i])) ==> Hashable(UrlOf(articles[i]))
  }

  /** The truthy urls of `articles`, as set members. */
  function Urls(articles: seq<Record>): set<Value> {
    if articles == [] then {}
    else
      var a := articles[|articles| - 1];
      Urls(articles[..|articles| - 1]) + (if Truthy(UrlOf(a)) then {HashKey(UrlOf(a))} else {})
  }

  /** An article is kept when its url is truthy and no earlier article has it. */
  function Dedup(articles: seq<Record>): seq<Record> {
    if articles == [] then []
    else
      var p := articles[..|articles| - 1];
      var a := articles[|articles| - 1];
      Dedup(p) + (if Truthy(UrlOf(a)) && HashKey(UrlOf(a)) !in Urls(p) then [a] else [])
  }

  /** `deduplicate_by_url` */
  method DeduplicateByUrl(articles: seq<Record>) returns (unique: seq<Record>)
    requires UrlsHashable(articles)
    ensures unique == Dedup(articles)
  {
    var seen: set<Value> := {};
    unique := [];
    for i := 0 to |articles|
      invariant seen == Urls(articles[..i])
      invariant unique == Dedup(articles[..i])
    {
      var article := articles[i];
      var url := Get(article, "url", Null);
      assert articles[..i + 1][..i] == articles[..i];
      if Truthy(url) && HashKey(url) !in seen {
        seen := seen + {HashKey(url)};
        unique := unique + [article];
      }
    }
    assert articles[..|articles|] == articles;
  }

  /** The kept articles appear in the input, in input order. */
  lemma {:induction false} DedupSubsequence(articles: seq<Record>)
    ensures Subsequence(Dedup(articles), articles)
  {
    if articles != [] {
      var p := articles[..|articles| - 1];
      var a := articles[|articles| - 1];
      DedupSubsequence(p);
      if Truthy(UrlOf(a)) && HashKey(UrlOf(a)) !in Urls(p) {
        assert (Dedup(p) + [a])[..|Dedup(p)|] == Dedup(p);
      } else {
        assert Dedup(articles) == Dedup(p);
      }
    }
  }

  /** The kept articles have truthy urls, no two of them the same. */
  predicate DistinctUrls(articles: seq<Record>) {
    (forall i :: 0 <= i < |articles| ==> Truthy(UrlOf(articles[i])))
    && (forall i, j :: 0 <= i < j < |articles| ==> HashKey(UrlOf(articles[i])) != HashKey(UrlOf(articles[j])))
  }

  lemma {:induction false} UrlsMembers(articles: seq<Record>)
    ensures forall k :: k in Urls(articles) <==>
      exists i :: 0 <= i < |articles| && Truthy(UrlOf(articles[i])) && k == HashKey(UrlOf(articles[i]))
  {
    if articles != [] {
      var p := articles[..|articles| - 1];
      UrlsMembers(p);
      forall k ensures k in Urls(articles) <==>
        exists i :: 0 <= i < |articles| && Truthy(UrlOf(articles[i])) && k == HashKey(UrlOf(articles[i]))
      {
        if k in Urls(p) {
          var i :| 0 <= i < |p| && Truthy(UrlOf(p[i])) && k == HashKey(UrlOf(p[i]));
          assert articles[i] == p[i];
        }
        if exists i :: 0 <= i < |articles| && Truthy(UrlOf(articles[i])) && k == HashKey(UrlOf(articles[i])) {
          var i :| 0 <= i < |articles| && Truthy(UrlOf(articles[i])) && k == HashKey(UrlOf(articles[i]));
          if i < |p| {
            assert articles[i] == p[i];
          }
        }
      }
    }
  }

  /** Deduplication keeps every url once: the kept urls are all the truthy urls
      of the input, each on exactly one kept article. */
  lemma DedupUrls(articles: seq<Record>)
    ensures Urls(Dedup(articles)) == Urls(articles)
    ensures DistinctUrls(Dedup(articles))
  {
    DedupSameUrls(articles);
    DedupDistinctUrls(articles);
  }

  lemma {:induction false} DedupSameUrls(articles: seq<Record>)
    ensures Urls(Dedup(articles)) == Urls(articles)
  {
    if articles != [] {
      var p := articles[..|articles| - 1];
      var a := articles[|articles| - 1];
      DedupSameUrls(p);
      var d := Dedup(p);
      if Truthy(UrlOf(a)) && HashKey(UrlOf(a)) !in Urls(p) {
        assert Dedup(articles) == d + [a];
        assert (d + [a])[..|d|] == d;
        assert Urls(d + [a]) == Urls(d) + {HashKey(UrlOf(a))};
      } else {
        assert Dedup(articles) == d;
        assert Urls(articles) == Urls(p);
      }
    }
  }

  lemma {:induction false} DedupDistinctUrls(articles: seq<Record>)
    ensures DistinctUrls(Dedup(articles))
  {
    if articles != [] {
      var p := articles[..|articles| - 1];
      var a := articles[|articles| - 1];
      DedupDistinctUrls(p);
      var d := Dedup(p);
      if Truthy(UrlOf(a)) && HashKey(UrlOf(a)) !in Urls(p) {
        DedupSameUrls(p);
        assert Dedup(articles) == d + [a];
        DistinctUrlsSnoc(d, a);
      } else {
        assert Dedup(articles) == d;
      }
    }
  }

  /** An article is kept when its url is truthy and new at its position. */
  lemma {:induction false} DedupKeepsFirst(articles: seq<Record>)
    ensures forall i :: (0 <= i < |articles| && Truthy(UrlOf(articles[i]))
      && HashKey(UrlOf(articles[i])) !in Urls(articles[..i])) ==> articles[i] in Dedup(articles)
  {
    if articles != [] {
      var n := |articles| - 1;
      var p := articles[..n];
      DedupKeepsFirst(p);
      var d := Dedup(p);
      var r := Dedup(articles);
      assert forall v :: v in d ==> v in r;
      forall i | 0 <= i < |articles| && Truthy(UrlOf(articles[i]))
        && HashKey(UrlOf(articles[i])) !in Urls(articles[..i])
        ensures articles[i] in r
      {
        if i < n {
          assert articles[..i] == p[..i] && articles[i] == p[i];
        } else {
          assert articles[..i] == p;
        }
      }
    }
  }

  /** Every kept article is, at some position of the input, the first with
      its url. */
  lemma {:induction false} DedupKeptFirst(articles: seq<Record>)
    ensures forall v :: v in Dedup(articles) ==>
      exists i :: 0 <= i < |articles| && articles[i] == v && Truthy(UrlOf(v))
        && HashKey(UrlOf(v)) !in Urls(articles[..i])
  {
    if articles != [] {
      var n := |articles| - 1;
      var p := articles[..n];
      var a := articles[n];
      DedupKeptFirst(p);
      var d := Dedup(p);
      var r := Dedup(articles);
      forall v | v in r
        ensures exists i ::
          0 <= i < |articles| && articles[i] == v && Truthy(UrlOf(v)) && HashKey(UrlOf(v)) !in Urls(articles[..i])
      {
        if v in d {
          var i :| 0 <= i < |p| && p[i] == v && Truthy(UrlOf(v)) && HashKey(UrlOf(v)) !in Urls(p[..i]);
          assert articles[..i] == p[..i] && articles[i] == p[i];
        } else {
          assert v == a && articles[..n] == p;
        }
      }
    }
  }

  /** A truthy url of an article is among the urls. */
  lemma {:induction false} UrlInUrls(articles: seq<Record>, i: nat)
    requires i < |articles| && Truthy(UrlOf(articles[i]))
    ensures HashKey(UrlOf(articles[i])) in Urls(articles)
  {
    var p := articles[..|articles| - 1];
    if i < |p| {
      assert articles[i] == p[i];
      UrlInUrls(p, i);
    }
  }

  /** Appending an article with a new truthy url keeps the urls distinct. */
  lemma DistinctUrlsSnoc(d: seq<Record>, a: Record)
    requires DistinctUrls(d) && Truthy(UrlOf(a)) && HashKey(UrlOf(a)) !in Urls(d)
    ensures DistinctUrls(d + [a])
  {
    var r := d + [a];
    forall i, j | 0 <= i < j < |r| ensures HashKey(UrlOf(r[i])) != HashKey(UrlOf(r[j])) {
      assert r[i] == d[i];
      if j == |d| {
        UrlInUrls(d, i);
      } else {
        assert r[j] == d[j];
      }
    }
    forall i | 0 <= i < |r| ensures Truthy(UrlOf(r[i])) {
      if i < |d| {
        assert r[i] == d[i];
      }
    }
  }

  lemma DistinctUrlsPrefix(articles: seq<Record>)
    requires articles != [] && DistinctUrls(articles)
    ensures DistinctUrls(articles[..|articles| - 1])
  {
    var p := articles[..|articles| - 1];
    assert forall i :: 0 <= i < |p| ==> p[i] == articles[i];
  }

  lemma DistinctUrlsLastNew(articles: seq<Record>)
    requires articles != [] && DistinctUrls(articles)
    ensures HashKey(UrlOf(articles[|articles| - 1])) !in Urls(articles[..|articles| - 1])
  {
    var p := articles[..|articles| - 1];
    UrlsMembers(p);
    assert forall i :: 0 <= i < |p| ==> p[i] == articles[i];
  }

  /** Input that already has distinct truthy urls is left as it is. */
  lemma {:induction false} DedupOfDistinct(articles: seq<Record>)
    requires DistinctUrls(articles)
    ensures Dedup(articles) == articles
  {
    if articles != [] {
      var p := articles[..|articles| - 1];
      DistinctUrlsPrefix(articles);
      DedupOfDistinct(p);
      DistinctUrlsLastNew(articles);
      assert p + [articles[|articles| - 1]] == articles;
    }
  }

  /** Deduplicating twice is deduplicating once. */
  lemma DedupIdempotent(articles: seq<Record>)
    ensures Dedup(Dedup(articles)) == Dedup(articles)
  {
    DedupUrls(articles);
    DedupOfDistinct(Dedup(articles));
  }

  // ---------------------------------------------------------------------
  // batch_write_articles

  /** `articles[i : i + size]` for `i` in `range(0, len(articles), size)`. */
  function Chunks(xs: seq<Record>, size: nat): seq<seq<Record>>
    requires size > 0
    decreases |xs|
  {
    if xs == [] then []
    else if |xs| <= size then [xs]
    else [xs[..size]] + Chunks(xs[size..], size)
  }

  function Flatten(css: seq<seq<Record>>): seq<Record> {
    if css == [] then [] else css[0] + Flatten(css[1..])
  }

  /** The batches cover the input in order. */
  lemma {:induction false} ChunksCover(xs: seq<Record>, size: nat)
    requires size > 0
    ensures Flatten(Chunks(xs, size)) == xs
    decreases |xs|
  {
    if |xs| > size {
      ChunksCover(xs[size..], size);
      var t := Chunks(xs[size..], size);
      assert ([xs[..size]] + t)[1..] == t;
      assert xs[..size] + xs[size..] == xs;
    } else if xs != [] {
      assert Flatten([xs]) == xs + Flatten([]);
    }
  }

  /** Each batch holds between 1 and `size` articles, and all but the last exactly `size`. */
  lemma {:induction false} ChunksSizes(xs: seq<Record>, size: nat)
    requires size > 0
    ensures forall c :: c in Chunks(xs, size) ==> 0 < |c| <= size
    ensures forall i :: 0 <= i < |Chunks(xs, size)| - 1 ==> |Chunks(xs, size)[i]| == size
    decreases |xs|
  {
    if |xs| > size {
      ChunksSizes(xs[size..], size);
      var t := Chunks(xs[size..], size);
      var r := [xs[..size]] + t;
      assert Chunks(xs, size) == r;
      assert forall i :: 1 <= i < |r| ==> r[i] == t[i - 1];
    }
  }

  /** There are ceil(n / size) batches: `size` times their number reaches n,
      and one batch fewer would not. */
  lemma {:induction false} ChunksCount(xs: seq<Record>, size: nat)
    requires size > 0
    ensures |xs| <= |Chunks(xs, size)| * size
    ensures |Chunks(xs, size)| == 0 || (|Chunks(xs, size)| - 1) * size < |xs|
    decreases |xs|
  {
    if |xs| > size {
      ChunksCount(xs[size..], size);
      var k := |Chunks(xs[size..], size)|;
      assert |Chunks(xs, size)| == k + 1;
      assert (k + 1) * size == k * size + size;
    }
  }

  /** The batch that starts at `i`. */
  lemma ChunksAt(xs: seq<Record>, i: nat, size: nat)
    requires size > 0 && i < |xs|
    ensures Chunks(xs[i..], size) ==
      [xs[i..if i + size < |xs| then i + size else |xs|]]
      + (if i + size <= |xs| then Chunks(xs[i + size..], size) else [])
  {
    var rest := xs[i..];
    if |rest| > size {
      assert rest[..size] == xs[i..i + size];
      assert rest[size..] == xs[i + size..];
    } else if i + size == |xs| {
      assert rest == xs[i..|xs|];
      assert xs[i + size..] == [];
    } else {
      assert rest == xs[i..|xs|];
    }
  }

  /** Taking the batch at `i` moves it from the remaining batches to the done
      ones; `all` stands for the batches of all of `xs`. */
  lemma ChunksStep(xs: seq<Record>, i: nat, size: nat, done: seq<seq<Record>>, all: seq<seq<Record>>)
    requires size > 0 && i < |xs|
    requires all == done + Chunks(xs[i..], size)
    ensures i + size <= |xs| ==>
      all == (done + [xs[i..if i + size < |xs| then i + size else |xs|]]) + Chunks(xs[i + size..], size)
    ensures i + size > |xs| ==>
      all == done + [xs[i..if i + size < |xs| then i + size else |xs|]]
  {
    ChunksAt(xs, i, size);
    var b := xs[i..if i + size < |xs| then i + size else |xs|];
    if i + size <= |xs| {
      var rest := Chunks(xs[i + size..], size);
      assert done + ([b] + rest) == (done + [b]) + rest;
    }
  }

  /** One store result per batch. */
  function StoreAll(batches: seq<seq<Record>>): (r: seq<StoreResult>)
    ensures |r| == |batches|
    ensures forall i :: 0 <= i < |batches| ==> r[i] == StoreArticles(batches[i])
  {
    if batches == [] then [] else StoreAll(batches[..|batches| - 1]) + [StoreArticles(batches[|batches| - 1])]
  }

  lemma StoreAllSnoc(done: seq<seq<Record>>, batch: seq<Record>)
    ensures StoreAll(done + [batch]) == StoreAll(done) + [StoreArticles(batch)]
  {
    assert (done + [batch])[..|done|] == done;
  }

  const RangeStepZero := "range() arg 3 must not be zero"

  /** `batch_write_articles`: one store result per batch. A batch size of 0
      raises ValueError; a negative one gives an empty range. */
  method BatchWriteArticles(articles: seq<Record>, batchSize: int) returns (r: Result<seq<StoreResult>>)
    ensures batchSize == 0 <==> r.Failure?
    ensures batchSize < 0 ==> r == Success([])
    ensures batchSize > 0 ==> r == Success(StoreAll(Chunks(articles, batchSize)))
  {
    if batchSize == 0 {
      return Failure(RangeStepZero);
    }
    if batchSize < 0 {
      return Success([]);
    }
    var size: nat := batchSize;
    var results: seq<StoreResult> := [];
    ghost var all := Chunks(articles, size);
    ghost var done: seq<seq<Record>> := [];
    assert articles[0..] == articles;
    var i := 0;
    while i < |articles|
      invariant 0 <= i
      invariant i <= |articles| ==> all == done + Chunks(articles[i..], size)
      invariant i > |articles| ==> all == done
      invariant results == StoreAll(done)
      decreases |articles| - i
    {
      var end := if i + size < |articles| then i + size else |articles|;
      var batch := articles[i..end];
      ChunksStep(articles, i, size, done, all);
      var result := StoreArticles(batch);
      StoreAllSnoc(done, batch);
      results := results + [result];
      done := done + [batch];
      i := i + size;
    }
    if i == |articles| {
      assert articles[i..] == [];
      assert Chunks(articles[i..], size) == [];
      assert done + [] == done;
    }
    return Success(results);
  }
}
