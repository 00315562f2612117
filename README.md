# Perception pipeline core, modelled in Dafny

This project models the deterministic core of the perception-with-intent
news pipeline. The pipeline harvests articles from RSS sources and
normalises them. It scores articles against keywords and ranks them,
analyses them, and writes a daily brief. A technology editor curates the tech
section. Validators screen articles and briefs, and storage helpers
deduplicate and batch them. An alert detector orders alerts by severity, and
run records move from "running" to "success" or "failed". Beside the
pipeline sit a small strategy read-out, which picks risk and opportunity cues
out of text, and the cloud integration settings.

Python payloads (`dict`s with string keys) are `Json.Value` and `Json.Record`.
Python truthiness is `Json.Truthy`, and `d.get(k, default)` is `Json.Get`.
Dicts whose insertion order is observable (tallies, `Counter`) are
association lists (`Counting.Counts`). `sorted(..., reverse=True)` is the
stable insertion sort `Sorting.SortDesc`, and a slice `xs[:n]`, with Python's
negative `n`, is `Sorting.PyTake`. Where the Python code would raise on a
value of the wrong type (`.lower()` on a non-string title, `len(None)`), the
model requires callers to pass the type the code needs.

Modules follow the source files:

- `Harvester`: app/perception_agent/tools/agent_1_tools.py
- `Topics`: agent_2_tools.py
- `Scoring`: scoring_tools.py
- `RelevanceRanking`: agent_3_tools.py
- `Analysis`: analysis_tools.py
- `BriefWriter`: agent_4_tools.py
- `Synthesis`: synthesis_tools.py
- `TechEditor`: agent_8_tools.py
- `SchemaValidator`: agent_6_tools.py
- `Validation`: validation_tools.py
- `Storage`: agent_7_tools.py
- `AlertDetector`: agent_5_tools.py
- `Orchestrator`: agent_0_tools.py
- `Strategy`: app/jvp_agent/tools/strategic_orchestrator.py
- `Config`: app/jvp_agent/config.py

`Json`, `Text`, `Sorting`, `Counting` and `Wrappers` hold the Python
semantics that these modules share.

Loops in the source are methods with loop invariants. Each is proved equal to
a specification function, and the properties are lemmas about that function.
Code that only computes a value is a function.

## Model

| member | source | states |
|---|---|---|
| Harvester.LoadSourcesFromRows | app/perception_agent/tools/agent_1_tools.py:53-62 | the row loop returns the sources of exactly the rows whose `enabled` cell, lower-cased, is "true" |
| Harvester.NormalizeArticle | app/perception_agent/tools/agent_1_tools.py:175-208 | the normalised article carries the given `source_id` and `category` |
| Harvester.EnabledSourcesFacts | app/perception_agent/tools/agent_1_tools.py:53-62 | one source per enabled row, each marked enabled, each built from an enabled row's columns |
| Harvester.NormalizeArticleFields | app/perception_agent/tools/agent_1_tools.py:197-208 | normalisation is total and yields the ten fields; `source_id` and `category` are the arguments; `title` defaults to "Untitled", `url` to "" and `categories` to [] only when the key is absent |
| Harvester.NormalizeArticleContent | app/perception_agent/tools/agent_1_tools.py:204 | `content` is the first truthy of `raw_content`, `summary`, `content_snippet`, else the `content_snippet` value or None |
| Harvester.NormalizeAll | app/perception_agent/tools/agent_1_tools.py:272-274 | one normalised article per fetched item |
| Harvester.HarvestAllSources | app/perception_agent/tools/agent_1_tools.py:237-297 | `source_count` is the number of loaded sources whatever their type; the articles and `total_fetched` are those of the RSS sources, source by source; no sources give no articles and 0 fetched |
| Harvester.HarvestedLength | app/perception_agent/tools/agent_1_tools.py:272-276 | `len(articles) == total_fetched` |
| Harvester.HarvestedFromRss | app/perception_agent/tools/agent_1_tools.py:262-274 | every article is the normalisation of an item fetched from an RSS source, with that source's id and category |
| Harvester.NonRssContributesNothing | app/perception_agent/tools/agent_1_tools.py:262 | a source of another type adds no article and no fetched count |
| Topics.ValidateTopicStructure | app/perception_agent/tools/agent_2_tools.py:99-110 | valid iff no errors; at most 2 errors; the name error iff the name is falsy, the keyword error iff the keywords are falsy, the name error first |
| Topics.ValidTopic | app/perception_agent/tools/agent_2_tools.py:99-110 | a topic is valid iff both `name` and `keywords` are truthy |
| Topics.GetActiveTopics | app/perception_agent/tools/agent_2_tools.py:30 | the stub returns no topics |
| Topics.CreateTopic | app/perception_agent/tools/agent_2_tools.py:45-48 | every entry of the topic data is kept; `topic_id` is "generated_id" unless the data supplies one |
| Topics.UpdateTopic | app/perception_agent/tools/agent_2_tools.py:66-69 | the updates merged over `{topic_id}`; an update may override `topic_id` |
| Topics.UpdateOfCreated | app/perception_agent/tools/agent_2_tools.py:45-69 | an empty update yields just the id; updating with created data changes nothing; update and create differ only in the id |
| Topics.DeleteTopic | app/perception_agent/tools/agent_2_tools.py:84 | the stub always reports success |
| Scoring.Relevance | app/perception_agent/tools/scoring_tools.py:68-73 | the score is the raw score capped at 10, so it lies in [0,10]; the article is returned unchanged |
| Scoring.MatchTitle | app/perception_agent/tools/scoring_tools.py:45-49 | the title loop matches exactly the title keywords, 3 points each, with a "title" location iff any matched |
| Scoring.MatchContent | app/perception_agent/tools/scoring_tools.py:52-56 | the content loop adds 1 point per keyword found in the content but not the title, each once, with a "content" location iff any |
| Scoring.CalculateRelevanceScore | app/perception_agent/tools/scoring_tools.py:37-73 | the method returns the scored article `Relevance` describes |
| Scoring.RelevanceKeywords | app/perception_agent/tools/scoring_tools.py:71 | the matched keywords, as a set, are exactly the keywords found in the title or the content |
| Scoring.RelevanceTitleLocation | app/perception_agent/tools/scoring_tools.py:45-72 | "title" is a location iff some keyword occurs in the title |
| Scoring.RelevanceContentLocation | app/perception_agent/tools/scoring_tools.py:52-72 | "content" is a location iff some keyword occurs in the content and not in the title |
| Scoring.ContentOnlyMembers | app/perception_agent/tools/scoring_tools.py:53 | a keyword counts for the content iff it is listed, found in the content and not in the title |
| Scoring.TitleMatchesMembers | app/perception_agent/tools/scoring_tools.py:45-48 | the title matches are exactly the listed keywords found in the title |
| Scoring.TitleNotRecounted | app/perception_agent/tools/scoring_tools.py:53 | a keyword found in the title is never counted again for the content |
| Scoring.BoostAddsTwo | app/perception_agent/tools/scoring_tools.py:59-60 | the boost adds exactly 2, iff the boost list is non-empty and holds the article's source |
| Scoring.CaseInsensitive | app/perception_agent/tools/scoring_tools.py:41-46 | lower-casing the title and content does not change the score |
| Scoring.MoreKeywordsNoLower | app/perception_agent/tools/scoring_tools.py:45-56 | adding a keyword never lowers the raw score |
| Scoring.ScoreAll | app/perception_agent/tools/scoring_tools.py:96-98 | one scored article per input article |
| Scoring.RankArticles | app/perception_agent/tools/scoring_tools.py:94-103 | the method returns the stably sorted, cut ranking |
| Scoring.RankingShape | app/perception_agent/tools/scoring_tools.py:101-103 | at most `top_n` and at most n results, non-increasing in score, all of them scored inputs |
| Scoring.RankingTop | app/perception_agent/tools/scoring_tools.py:101-103 | no scored article left out ranks above one kept |
| Scoring.RankingStable | app/perception_agent/tools/scoring_tools.py:101 | the kept articles of each score are the first ones of that score, in input order |
| Scoring.FilterByThreshold | app/perception_agent/tools/scoring_tools.py:122 | an article is kept iff it is an input with `relevance_score` (0 when missing) at least `min_score` |
| Scoring.KeepMembers | app/perception_agent/tools/scoring_tools.py:122 | the threshold filter keeps exactly the articles at or above the threshold |
| Scoring.KeepSubsequence | app/perception_agent/tools/scoring_tools.py:122 | the filter preserves input order |
| Scoring.KeepIdempotent | app/perception_agent/tools/scoring_tools.py:122 | filtering twice is filtering once |
| RelevanceRanking.ScoreArticleRelevance | app/perception_agent/tools/agent_3_tools.py:32-38 | the stub's `article_id` is the article's url, with empty scores and lists and `overall_score` 0 |
| RelevanceRanking.MatchArticleToTopics | app/perception_agent/tools/agent_3_tools.py:56 | the stub matches no topic |
| RelevanceRanking.CalculateImportance | app/perception_agent/tools/agent_3_tools.py:70-75 | 0 for no topic scores; otherwise one of the scores, and at least every score |
| RelevanceRanking.MaxScore | app/perception_agent/tools/agent_3_tools.py:75 | the maximum is one of the scores and bounds them all |
| RelevanceRanking.FilterByThreshold | app/perception_agent/tools/agent_3_tools.py:91-95 | an order-preserving sublist holding exactly the articles whose `relevance_score` (0 when missing) reaches the threshold |
| RelevanceRanking.RankArticles | app/perception_agent/tools/agent_3_tools.py:108-110 | a permutation, non-increasing in `importance_score` |
| RelevanceRanking.RankArticlesStable | app/perception_agent/tools/agent_3_tools.py:108-110 | articles of equal importance keep their input order |
| Analysis.GenerateSummary | app/perception_agent/tools/analysis_tools.py:36 | the placeholder summary |
| Analysis.ExtractTags | app/perception_agent/tools/analysis_tools.py:57 | a prefix of the four placeholder tags, with the length Python's slice gives for every `max_tags`, negative ones included |
| Analysis.Importance | app/perception_agent/tools/analysis_tools.py:78-94 | the importance lies in [5,8], so within [1,10] |
| Analysis.ScoreImportance | app/perception_agent/tools/analysis_tools.py:78-94 | the method, which keeps the 1.5 boost in half points and truncates, returns `Importance` |
| Analysis.UrgencyOnce | app/perception_agent/tools/analysis_tools.py:84-87 | an urgent title adds exactly 2 however many urgency words it holds |
| Analysis.AnalyzedFields | app/perception_agent/tools/analysis_tools.py:114-126 | each record has the seven fields; `article_id` is the url or ""; the placeholder summary, the four placeholder tags, an importance in [5,8] |
| Analysis.AnalyzeBatch | app/perception_agent/tools/analysis_tools.py:111-128 | one analysis record per article, in input order |
| BriefWriter.GenerateExecutiveSummary | app/perception_agent/tools/agent_4_tools.py:25 | the stub's fixed sentence |
| BriefWriter.ExtractHighlights | app/perception_agent/tools/agent_4_tools.py:40 | the stub extracts no highlight |
| BriefWriter.AnalyzeStrategicImplications | app/perception_agent/tools/agent_4_tools.py:57 | the stub maps no topic |
| BriefWriter.CalculateBriefMetrics | app/perception_agent/tools/agent_4_tools.py:73-89 | the counting loop returns `Metrics` |
| BriefWriter.SourceIdsFacts | app/perception_agent/tools/agent_4_tools.py:80-85 | the counted ids are non-empty source ids of the articles, at most one per article, one per article iff all are truthy |
| BriefWriter.MetricsFacts | app/perception_agent/tools/agent_4_tools.py:74-85 | `article_count` is the number of articles; the counts sum to the number of truthy source ids, at most `article_count`; keys are distinct and hold true counts; `main_topics` is empty |
| BriefWriter.GenerateBrief | app/perception_agent/tools/agent_4_tools.py:113-122 | echoes the given date (today's otherwise), the fixed summary, no highlights or implications, and the metrics of the articles |
| Synthesis.LinesOf | app/perception_agent/tools/synthesis_tools.py:64-68 | one highlight line per selected article, in order |
| Synthesis.GenerateExecutiveSummary | app/perception_agent/tools/synthesis_tools.py:14-42 | the fixed placeholder text: its lines joined by line breaks, whatever the articles |
| Synthesis.Highlights | app/perception_agent/tools/synthesis_tools.py:61-70 | min(`max_highlights`, n) highlights, with Python's slice length for a negative bound |
| Synthesis.IdentifyHighlights | app/perception_agent/tools/synthesis_tools.py:61-70 | the method returns `Highlights` |
| Synthesis.RenderHighlights | app/perception_agent/tools/synthesis_tools.py:63-70 | the loop renders each selected article |
| Synthesis.HighlightLines | app/perception_agent/tools/synthesis_tools.py:64-68 | each line describes the article at the same place in the selection |
| Synthesis.HighlightOrder | app/perception_agent/tools/synthesis_tools.py:61-64 | the selection is non-increasing in `importance_score` (0 when missing), ties in input order |
| Synthesis.HighlightTop | app/perception_agent/tools/synthesis_tools.py:61-64 | no article left out is more important than one selected |
| Synthesis.CalculateMetrics | app/perception_agent/tools/synthesis_tools.py:73-100 | the method returns the integer metrics `Metrics`, for any list including the empty one |
| Synthesis.GatherTags | app/perception_agent/tools/synthesis_tools.py:90-92 | the tag loop concatenates every article's tags in order |
| Synthesis.SourcesMembers | app/perception_agent/tools/synthesis_tools.py:86 | the counted sources are truthy sources of the articles |
| Synthesis.AllTagsMembers | app/perception_agent/tools/synthesis_tools.py:90-92 | every gathered tag is a tag of some article |
| Synthesis.TopSourcesFacts | app/perception_agent/tools/synthesis_tools.py:86-87 | at most 10 distinct truthy sources, by non-increasing count, each with its true count |
| Synthesis.MainTopicsFacts | app/perception_agent/tools/synthesis_tools.py:90-93 | at most 5 distinct tags, each of some article, by non-increasing frequency, ties in first-seen order |
| Synthesis.CreateDailyBrief | app/perception_agent/tools/synthesis_tools.py:116-131 | echoes a non-empty date (today's otherwise), status "Generated", the stripped summary, the top 7 highlights and the metrics; the empty list of articles is accepted |
| Synthesis.BriefSummary | app/perception_agent/tools/synthesis_tools.py:127 | `summary.strip()`: the summary with exactly its leading and trailing whitespace removed; the result neither starts nor ends with whitespace |
| TechEditor.TechOnlyMembers | app/perception_agent/tools/agent_8_tools.py:38 | the Tech articles are exactly the inputs in the Tech section |
| TechEditor.SelectTopTechArticles | app/perception_agent/tools/agent_8_tools.py:18-54 | only Tech articles of the input, highest score first |
| TechEditor.SelectionShape | app/perception_agent/tools/agent_8_tools.py:38-44 | only Tech articles, at most `max_articles` and at most the Tech count, non-increasing in score, the top ones |
| TechEditor.SelectionStable | app/perception_agent/tools/agent_8_tools.py:41 | ties keep input order |
| TechEditor.LowerAll | app/perception_agent/tools/agent_8_tools.py:88-89 | each tag lower-cased, in order |
| TechEditor.ProposeTechHeadline | app/perception_agent/tools/agent_8_tools.py:77-121 | the method returns `Headline`; no articles give "Technology Update" |
| TechEditor.CountLowered | app/perception_agent/tools/agent_8_tools.py:87-90 | the loop tallies the lower-cased tags in first-seen order |
| TechEditor.ThemesFacts | app/perception_agent/tools/agent_8_tools.py:86-94 | at most 3 distinct themes, each a lower-cased tag, by non-increasing count, ties in first-seen order, none left out more frequent (via ThemesTop) |
| TechEditor.ThemesTop | app/perception_agent/tools/agent_8_tools.py:93-94 | no tag left out is more frequent than a theme; fewer than 3 themes only when every tag is a theme |
| TechEditor.CaseInsensitiveThemes | app/perception_agent/tools/agent_8_tools.py:89 | two article lists whose tag lists agree article by article once lower-cased give the same themes |
| TechEditor.HeadlinePriority | app/perception_agent/tools/agent_8_tools.py:97-111 | each headline exactly when its case of the chain holds: AI if an AI theme; cloud if cloud or kubernetes and no AI theme; deals if startup or acquisition and none of those; the title fallback if none of the six themes |
| TechEditor.FallbackHeadlineShape | app/perception_agent/tools/agent_8_tools.py:108-111 | "Technology: " + the title up to 50 characters; past 50, its first 47 and "...", 62 characters |
| TechEditor.KeyPointsOf | app/perception_agent/tools/agent_8_tools.py:153-159 | one key point per article, in order |
| TechEditor.RefsOf | app/perception_agent/tools/agent_8_tools.py:163-171 | one reference per article, in order |
| TechEditor.EnhanceTechSection | app/perception_agent/tools/agent_8_tools.py:149-183 | the section depends only on the selected articles, never on the section data |
| TechEditor.BuildKeyPoints | app/perception_agent/tools/agent_8_tools.py:152-159 | the key-point loop renders each article |
| TechEditor.BuildArticleRefs | app/perception_agent/tools/agent_8_tools.py:162-171 | the reference loop copies each article's five fields |
| TechEditor.SectionShape | app/perception_agent/tools/agent_8_tools.py:152-183 | min(5, n) key points for the first articles, n references in input order, `meta.article_count` n, the proposed headline |
| SchemaValidator.RequireFields | app/perception_agent/tools/agent_6_tools.py:29-31 | the loop reports each absent field, in field order |
| SchemaValidator.AbsentFieldsFacts | app/perception_agent/tools/agent_6_tools.py:29-31 | each message names an absent field; for distinct fields each absent one is reported exactly once and a present one never, whatever its value |
| SchemaValidator.ChecksFacts | app/perception_agent/tools/agent_6_tools.py:29-36 | at most one error per field plus one; the type error iff the type check fails, and then last; no errors iff all keys present and the type check passes |
| SchemaValidator.ValidateArticleSchema | app/perception_agent/tools/agent_6_tools.py:26-36 | the errors are the missing-key messages then the url type error; valid iff no errors |
| SchemaValidator.ArticleSchemaFacts | app/perception_agent/tools/agent_6_tools.py:26-36 | at most 4 errors; presence, not emptiness, of `title`, `url`, `source_id`; the url error iff a present url is not a string; no errors iff all three are present and the url is a string |
| SchemaValidator.DetectDuplicates | app/perception_agent/tools/agent_6_tools.py:39-52 | the stub finds no duplicates |
| SchemaValidator.VerifyDataQuality | app/perception_agent/tools/agent_6_tools.py:68-87 | 3 off for content under 50 characters and 2 off for a title under 10; the score is in {5,7,8,10}; no issues iff 10; each issue iff its cause |
| SchemaValidator.ValidateBriefStructure | app/perception_agent/tools/agent_6_tools.py:103-112 | the missing-key messages then the highlights type error; valid iff no errors |
| SchemaValidator.BriefSchemaFacts | app/perception_agent/tools/agent_6_tools.py:103-112 | at most 4 errors; each absent key once; the highlights error iff a present `highlights` is not a list; no errors iff all keys present and `highlights` a list |
| SchemaValidator.GenerateUrlHash | app/perception_agent/tools/agent_6_tools.py:115-125 | the hex SHA-256 digest of the url, with the digest function a parameter |
| Validation.TruthyEntries | app/perception_agent/tools/validation_tools.py:29-30 | the keys whose values are truthy |
| Validation.RequireTruthy | app/perception_agent/tools/validation_tools.py:29-31 | the loop reports each falsy field, in field order |
| Validation.FalsyFieldsFacts | app/perception_agent/tools/validation_tools.py:29-31 | each falsy field is reported exactly once and a truthy one never |
| Validation.FalsyFieldsThen | app/perception_agent/tools/validation_tools.py:29-51 | with further errors that are not missing-field messages: the counts are kept, and no errors iff every field is truthy and there are no further errors |
| Validation.ValidateArticle | app/perception_agent/tools/validation_tools.py:28-57 | the errors and warnings of the article; valid iff no errors, whatever the warnings |
| Validation.OtherArticleErrors | app/perception_agent/tools/validation_tools.py:34-51 | the url and score errors are not missing-field messages |
| Validation.ArticleValidity | app/perception_agent/tools/validation_tools.py:28-51 | no errors iff the five fields are truthy, a url is http(s) and a truthy score lies in [1,10]; at most 7 errors; each falsy field reported once |
| Validation.ValidateBatch | app/perception_agent/tools/validation_tools.py:78-113 | the report's lists and counts are those of the batch walk; `validation_errors` is the rejections less the duplicates; valid iff nothing was rejected |
| Validation.SeenKeysMembers | app/perception_agent/tools/validation_tools.py:83-89 | a url has been seen iff some article carries it |
| Validation.BatchAccounting | app/perception_agent/tools/validation_tools.py:102-109 | validated plus rejected is the number of articles; duplicates are at most the rejections, and equal the articles less the distinct urls |
| Validation.BatchKept | app/perception_agent/tools/validation_tools.py:78-95 | the kept articles are an order-preserving subsequence of error-free articles with pairwise distinct urls |
| Validation.BatchKeepsFirst | app/perception_agent/tools/validation_tools.py:83-95 | the first article with a url is kept when it has no errors |
| Validation.BatchKeptFirst | app/perception_agent/tools/validation_tools.py:83-95 | every kept article is the first with its url |
| Validation.BatchValidity | app/perception_agent/tools/validation_tools.py:103 | nothing is rejected iff the urls are distinct and no article has errors, so any duplicate makes the batch invalid |
| Validation.ValidateDailySummary | app/perception_agent/tools/validation_tools.py:130-157 | the summary's errors and warnings; valid iff no errors |
| Validation.SummaryValidity | app/perception_agent/tools/validation_tools.py:130-141 | no errors iff the four fields are truthy and a truthy date parses; at most 5 errors; each falsy field reported once |
| Validation.CheckDataQuality | app/perception_agent/tools/validation_tools.py:173-180 | an article or summary passes iff its validator finds no errors; any other type passes |
| Storage.StoreArticles | app/perception_agent/tools/agent_7_tools.py:28-31 | the stub stores 0 articles with no errors |
| Storage.StoreBrief | app/perception_agent/tools/agent_7_tools.py:49-53 | the stub reports not stored, no id, "Not implemented" |
| Storage.LogIngestionRun | app/perception_agent/tools/agent_7_tools.py:71-74 | the stub reports not finalized, "Not implemented" |
| Storage.DeduplicateByUrl | app/perception_agent/tools/agent_7_tools.py:87-96 | the loop returns `Dedup` |
| Storage.DedupSubsequence | app/perception_agent/tools/agent_7_tools.py:90-96 | the output is an order-preserving subsequence of the input |
| Storage.UrlsMembers | app/perception_agent/tools/agent_7_tools.py:91-93 | a url is collected iff some article's truthy url has it |
| Storage.DedupUrls | app/perception_agent/tools/agent_7_tools.py:87-96 | every truthy input url is kept exactly once, missing or empty urls are dropped, no two outputs share a url |
| Storage.DedupKeepsFirst | app/perception_agent/tools/agent_7_tools.py:87-96 | an article whose truthy url no earlier article has is kept |
| Storage.DedupKeptFirst | app/perception_agent/tools/agent_7_tools.py:87-96 | every kept article is, at its position, the first with its url |
| Storage.DedupOfDistinct | app/perception_agent/tools/agent_7_tools.py:90-96 | input with distinct truthy urls is returned unchanged |
| Storage.DedupIdempotent | app/perception_agent/tools/agent_7_tools.py:87-96 | deduplicating twice is deduplicating once |
| Storage.ChunksCover | app/perception_agent/tools/agent_7_tools.py:127-128 | the batches concatenate, in order, to the input |
| Storage.ChunksSizes | app/perception_agent/tools/agent_7_tools.py:127-128 | each batch holds 1 to `batch_size` articles, all but the last exactly `batch_size` |
| Storage.ChunksCount | app/perception_agent/tools/agent_7_tools.py:127 | there are ceil(n / `batch_size`) batches |
| Storage.StoreAll | app/perception_agent/tools/agent_7_tools.py:129-130 | one store result per batch |
| Storage.BatchWriteArticles | app/perception_agent/tools/agent_7_tools.py:126-132 | a zero batch size fails as `range` does, a negative one yields no batch, a positive one one result per batch |
| AlertDetector.CheckKeywordFrequency | app/perception_agent/tools/agent_5_tools.py:32 | the stub reports no spike |
| AlertDetector.AnalyzeSentimentShift | app/perception_agent/tools/agent_5_tools.py:49 | the stub reports no shift |
| AlertDetector.EvaluateThresholds | app/perception_agent/tools/agent_5_tools.py:70 | the stub triggers no alert |
| AlertDetector.DetectAnomalies | app/perception_agent/tools/agent_5_tools.py:88 | the stub finds no anomaly |
| AlertDetector.Priority | app/perception_agent/tools/agent_5_tools.py:102-106 | high 3, medium 2, low 1 (also for a missing severity), 0 otherwise |
| AlertDetector.PrioritizeAlerts | app/perception_agent/tools/agent_5_tools.py:104-108 | a permutation of the alerts, non-increasing in priority |
| AlertDetector.PrioritizeStable | app/perception_agent/tools/agent_5_tools.py:104-108 | alerts of equal priority keep their input order |
| AlertDetector.MissingSeverityIsLow | app/perception_agent/tools/agent_5_tools.py:106 | an alert without severity ranks ahead of one whose severity is not in the table |
| Orchestrator.StartIngestionRun | app/perception_agent/tools/agent_0_tools.py:36-43 | status "running", the trigger and start time echoed, a run id "run_" followed by the epoch seconds, which read back |
| Orchestrator.FinalizeIngestionRun | app/perception_agent/tools/agent_0_tools.py:61-66 | the run id echoed; "success" iff success, "failed" iff not, never "running"; falsy stats become {} and any other stats are kept |
| Orchestrator.RunLifecycle | app/perception_agent/tools/agent_0_tools.py:36-66 | a started run finalizes under its own id and leaves "running" |
| Orchestrator.BuildDailyIngestionPlan | app/perception_agent/tools/agent_0_tools.py:85-96 | the user id echoed and exactly 7 distinct fixed steps, fetch and harvest first, validate and store last |
| Orchestrator.PlanOrder | app/perception_agent/tools/agent_0_tools.py:85-96 | "validate" comes immediately before "store", and ranking before storage |
| Strategy.ExtractSignals | app/jvp_agent/tools/strategic_orchestrator.py:25-31 | the loop returns the messages of the matching entries, in table order |
| Strategy.SignalsOrder | app/jvp_agent/tools/strategic_orchestrator.py:28-31 | the signals are a subsequence of the table's messages, no more than the table has |
| Strategy.SignalsCount | app/jvp_agent/tools/strategic_orchestrator.py:28-31 | each message is reported no more often than the table lists it |
| Strategy.SignalsMembers | app/jvp_agent/tools/strategic_orchestrator.py:28-31 | a message is reported iff an entry carrying it matches |
| Strategy.SignalsOnce | app/jvp_agent/tools/strategic_orchestrator.py:8-31 | with the two tables, no signal is reported twice |
| Strategy.AssessRisks | app/jvp_agent/tools/strategic_orchestrator.py:34-40 | the score is the number of risk signals, at most 5; a score of 0 gives exactly the one fallback message |
| Strategy.AssessOpportunities | app/jvp_agent/tools/strategic_orchestrator.py:43-49 | the score is the number of opportunity signals, at most 5; a score of 0 gives exactly the one fallback message |
| Strategy.OrchestrateStrategy | app/jvp_agent/tools/strategic_orchestrator.py:52-77 | status "success", the query echoed; the risk and opportunity views in full, as `assess_risks` and `assess_opportunities` return them (score and signals, or the fallback message when nothing matched); caution iff risk outscores opportunity, momentum iff the reverse, balanced iff level |
| Strategy.NoBackslashNoSignals | app/jvp_agent/tools/strategic_orchestrator.py:29 | the pattern needs a literal backslash, so text without one yields no signal from either table |
| Config.FirstSetFacts | app/jvp_agent/config.py:10-15 | None iff no key is set; otherwise the non-empty value of a set key whose predecessors are all unset |
| Config.Env | app/jvp_agent/config.py:10-15 | the loop returns the first set key's value |
| Config.FromEnvironment | app/jvp_agent/config.py:22-27 | each field is read from its own fallback list |
| Config.EnvironmentCapabilities | app/jvp_agent/config.py:30-35 | from the environment, remote agent services and search are on iff each of their lists has a set key |
| Config.ServingConfigPath | app/jvp_agent/config.py:38-45 | None iff search is not configured |
| Config.ServingConfigPathInjective | app/jvp_agent/config.py:41-45 | slash-free identifiers can be read back from the path |
| Sorting.SortDesc | app/perception_agent/tools/scoring_tools.py:101 | `sorted(..., reverse=True)`: a permutation, non-increasing in the key |
| Sorting.SortDescStable | app/perception_agent/tools/agent_3_tools.py:108-110 | the elements of each key keep their input order |
| Sorting.PyTake | app/perception_agent/tools/scoring_tools.py:103 | `xs[:n]`: a prefix of Python's slice length, negative `n` counting from the end |
| Sorting.TakeSortedShape | app/perception_agent/tools/synthesis_tools.py:61-64 | the first n of a descending sort: at most n, non-increasing, from the input |
| Sorting.TakeSortedTop | app/perception_agent/tools/agent_8_tools.py:41-44 | nothing left out ranks above anything kept |
| Counting.TallyKeys | app/perception_agent/tools/agent_8_tools.py:87-90 | the tally's keys are the distinct elements |
| Counting.TallyCounts | app/perception_agent/tools/agent_8_tools.py:87-90 | each entry holds the true count |
| Counting.TallyOrder | app/perception_agent/tools/agent_8_tools.py:87-90 | keys in first-occurrence order |
| Counting.TallyTotal | app/perception_agent/tools/agent_4_tools.py:80-85 | the counts add up to the number of elements |
| Counting.MostCommonFacts | app/perception_agent/tools/synthesis_tools.py:87-93 | `most_common(n)`: at most n true counts of distinct elements (none for a negative n), non-increasing, ties in first-occurrence order |
| Counting.MostCommonIsTop | app/perception_agent/tools/synthesis_tools.py:87-93 | nothing left out is more frequent than anything listed |
| Counting.MostCommonComplete | app/perception_agent/tools/synthesis_tools.py:87-93 | when fewer than n entries are listed, every element is listed |
| Text.ParseIntToDecimal | app/perception_agent/tools/agent_0_tools.py:36 | a rendered integer reads back as itself |
| Text.Strip | app/perception_agent/tools/synthesis_tools.py:127 | `str.strip()`: the input cut to `s[i..j]` where everything before `i` and from `j` on is whitespace, and the result neither starts nor ends with whitespace |
| Text.LowerIdempotent | app/perception_agent/tools/scoring_tools.py:41-46 | lower-casing twice is lower-casing once |
| Json.HashKey | app/perception_agent/tools/validation_tools.py:83-89 | set membership identifies `True` with 1 and `False` with 0 |

## Left out

- Network and remote calls: `fetch_rss` is a function parameter of
  `Harvester.HarvestAllSources`. The HTTP service, the RAG search and the
  mocked remote tools are not part of this model.
- File I/O: `load_sources_from_csv` is modelled only by its row loop, on rows
  passed in. Opening the file, its error handling and short rows are not
  modelled (the loader needs each column the enabled rows use).
- Clocks: `datetime.now()` and `date.today()` readings are parameters.
  `start_ingestion_run` reads the clock twice; the model takes both readings.
- Logging, `async` and the unused recency branch of the scorer have no
  effect on results and are left out. `handle_storage_errors` does nothing
  and is left out.
- Floating point: `average_importance` in `calculate_metrics` is not
  modelled. The `+1.5` boost of `score_importance` is modelled as its integer
  effect after `int()` truncation.
- Synthesis.CalculateMetrics: `average_importance` is a float (0 for an
  empty list) and is not modelled; summing non-numeric importance scores is
  not modelled either.
- Text.Lower: `str.lower()` is modelled on ASCII letters only; other
  characters are left unchanged.
- Strategy.NoBackslashNoSignals: the pattern `rf"\\b{kw}\\b"` is modelled
  literally, as a backslash and a `b` on each side of the keyword. The
  regular-expression engine itself is not modelled; `re.escape` leaves plain
  keywords unchanged.
- `list(set(...))` in `calculate_relevance_score` has no defined order, so
  `Scoring.Relevance` holds the matched keywords and locations as sets.
- Json.Render: renders strings and integers; the f-string rendering of
  other values is not modelled.
- Count keys: `Counter` and the source-id dict accept any hashable key; the
  model takes sources, source ids and tags as strings (None, or absent, where
  the source skips them), which is what the harvester and the analyzer produce.
- Config.FromEnvironment: `env` is the environment when the module is
  imported; later changes to the environment do not reach `Settings()`.
- Sort keys: where the source sorts or compares by a field, the model
  requires the field to be an integer or bool (absent counts as 0). Python
  would raise on an incomparable mix.
- `SchemaValidator.GenerateUrlHash`: SHA-256 is a function parameter;
  determinism holds by construction and is not stated as a lemma.
- `date_validator` in `validate_daily_summary`: `strptime` is a predicate
  parameter.
- Validation.ValidateArticle: the message functions are total. On inputs the
  method accepts (a truthy url is a string, a truthy score an integer) they
  give the source's messages.
- TechEditor.ProposeTechHeadline: requires tag lists of strings, since the
  tags are lower-cased. It also requires a string title, when present, in the
  first article, since the fallback takes its length.
- TechEditor.EnhanceTechSection: requires tag lists of strings, since the
  key points join the tags; titles and scores must be scalars, since only
  their scalar rendering is modelled; and the first article's title, when
  present, must be a string, since the headline takes its length.
- Analysis.GenerateSummary: requires a value `len` accepts, since the source
  logs its length.
- Result dicts are datatypes with one field per key. The storage and metrics
  dicts keep the keys the source writes.
- The end-to-end ingestion entry point is not part of this model.
