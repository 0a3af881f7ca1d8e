# AgriGuard corn-stress services: a Dafny model

AgriGuard watches Iowa corn fields county by county. This project models the
parts of it that decide what users see:

- **The API orchestrator.** It answers health checks. It forwards stress-index
  queries to the MCSI service, trying the in-cluster address first and then
  the local one. It also runs the yield pipeline: it fetches a county's stress
  history, picks the current week, keeps the weeks up to it, builds the
  `raw_data` feature map, posts it to the forecast service and reshapes the
  answer.
- **The two knowledge-base seeders.**
  - The batch seeder reads the PDF pages. It tags each non-blank page with
    its source, cuts each page into overlapping character windows, keeps the
    substantial ones, and adds them to the vector store in batches of 100.
  - The simple seeder joins the pages and cuts the text into chunks of 500
    words. It adds one chunk list per PDF, with ids `<file>_<n>`.
- **The RAG chat service.** It has a readiness gate on the store connection
  and the API key. It turns the store's query result into scored contexts and
  builds the language-model prompt from the question, the optional county,
  week and stress data, and the retrieved contexts.
- **The composite stress index.** This is the Multivariate Corn Stress Index
  (MCSI): water, heat, vegetation and atmospheric stress, weighted
  40/30/20/10, and its five status bands. It is modelled from the behaviour
  its test suite pins down.
- **The data-processing rules of the test suite.** These are the inline heat
  and vegetation bands, the three-weight aggregate, growing degree days,
  week of season, gap detection, dropping missing values and the
  missing-field check.
- **The interpretation helpers of the RAG integration suite.** These are the
  status label, the context text, the recommendations, the risk line and the
  provenance record.

Network calls, the PDF reader, the vector store, the language model, `uuid4`
and the clock are not modelled as behaviour. Each one is a parameter whose
possible answers the model covers:

- `get`/`post` functions return a reply or a transport error.
- A PDF's pages are `None` when reading raises.
- `addFails(k)` says whether the k-th add raises.
- `generate` returns the model's text or `None` when it raises.
- `uuid(k)` is the k-th fresh id.

Files, one module each:

| file | module | source |
|---|---|---|
| common.dfy | `Common` | Option/Result and sequence flattening |
| text.dfy | `Text` | Python's string operations (`strip`, `split`, `join`, `str(int)`, `startswith`, `lower`) used by the files below |
| orchestrator.dfy | `Orchestrator` | api/api_orchestrator.py |
| kb_seeder.dfy | `KnowledgeBaseSeeder` | rag/seed_rag_knowledge_base.py |
| seed.dfy | `Seed` | rag/seed.py |
| rag_service.dfy | `RagService` | rag/rag_service_simple.py |
| stress_index.dfy | `StressIndex` | tests/test_mcsi.py |
| data_processing.dfy | `DataProcessing` | tests/test_data_processing.py |
| interpretation.dfy | `Interpretation` | api/test_rag_integration.py |

## Model

| member | source | states |
|---|---|---|
| Text.StripEmptyIffAllSpace | rag/seed_rag_knowledge_base.py:72 | `text.strip()` is empty exactly when every character is Python whitespace |
| Text.StripHasNoOuterSpace | rag/seed_rag_knowledge_base.py:89 | the stripped text neither starts nor ends with whitespace, and everything removed was whitespace |
| Text.StripIsSubstring | rag/seed_rag_knowledge_base.py:89 | the stripped text is a piece of the original |
| Text.WordLength | rag/seed.py:24 | the length of the leading run of non-whitespace characters, ending at whitespace or the end |
| Text.SplitGivesWords | rag/seed.py:24 | every word `str.split()` yields is non-empty and holds no whitespace |
| Text.SplitEmptyIffAllSpace | rag/seed.py:24 | `str.split()` gives no words exactly when the text is all whitespace |
| Text.SplitJoin | rag/seed.py:24-27 | splitting `" ".join(words)` gives the same words back |
| Text.JoinAppend | rag/rag_service_simple.py:88 | joining one more part appends the separator and that part |
| Text.PartInJoin | rag/rag_service_simple.py:88 | every joined part occurs in the joined text |
| Text.IndexOf | rag/rag_service_simple.py:88 | the first position of a character, or the length when it is absent |
| Text.SplitOn | rag/rag_service_simple.py:88 | splitting on a character always yields at least one part |
| Text.SplitOnJoin | rag/rag_service_simple.py:88 | splitting a newline-joined text on newlines gives back the lines when no line holds a newline |
| Text.NatToString | rag/seed.py:57 | `str(n)` of a natural is a non-empty run of decimal digits, one digit exactly below ten |
| Text.IntToString | api/api_orchestrator.py:104 | `str(i)` is non-empty, digits and a leading minus exactly for negatives |
| Text.NatToStringInjective | rag/seed.py:57 | distinct naturals render differently |
| Text.IntToStringInjective | api/api_orchestrator.py:104 | distinct integers render differently, so `raw_data` keys of distinct weeks differ |
| Text.SubstringTransitive | api/test_rag_integration.py:131-137 | a piece of a piece of a text is a piece of that text |
| Text.Lower | api/test_rag_integration.py:176 | ASCII letters A-Z are lowered and every other character is kept, so the length is kept |
| Common.FlattenConcat | rag/seed.py:14-15 | concatenating the parts of two lists is concatenating the two results |
| Orchestrator.Fetch | api/api_orchestrator.py:56-65 | a call succeeds exactly when the primary answers 2xx with a body, or it raised and the fallback answers 2xx; a non-2xx answer is the error and is not retried; both raising is unreachable |
| Orchestrator.GetWithFallback | api/api_orchestrator.py:56-64 | the fallback is contacted only when the primary raised, and its reply is then the one used |
| Orchestrator.RaiseForStatus | api/api_orchestrator.py:65 | `raise_for_status` on the reply the fallback rule picked gives the outcome `Fetch` describes |
| Orchestrator.HealthCheck | api/api_orchestrator.py:19-45 | each service is healthy when its primary, or after a raise its local address, answers 200; a failure setting up the client yields the unhealthy report carrying its message |
| Orchestrator.HealthStatusRule | api/api_orchestrator.py:43 | the overall status is "healthy" exactly when both services are, else "degraded"; each service label is "healthy" exactly when that service is |
| Orchestrator.NonOkPrimaryIsNotRetried | api/api_orchestrator.py:25-33 | a primary that answers with a non-200 status makes the service unhealthy; the local address is not tried |
| Orchestrator.LimitText | api/api_orchestrator.py:51 | the `limit` text is `str(limit)` when given (`None` when passed as null) and never contains `&` |
| Orchestrator.RenderParamsAppend | api/api_orchestrator.py:52-55 | appending a parameter appends `key=value` |
| Orchestrator.QueryRoundTrip | api/api_orchestrator.py:51-55 | a rendered query starts with `?` and parses back to its parameters when no key holds `&` or `=` and no value holds `&` |
| Orchestrator.TimeseriesQueryShape | api/api_orchestrator.py:51-55 | `limit` comes first; `start_date` and `end_date` follow in that order exactly when they are truthy |
| Orchestrator.TimeseriesQueryRoundTrip | api/api_orchestrator.py:51-55 | the timeseries query parses back to the parameters it was built from when the dates hold no `&` |
| Orchestrator.FallbackUrlSameQuery | api/api_orchestrator.py:51-63 | the fallback URL carries the same path and query as the primary, on the local base |
| Orchestrator.TimeseriesUrl | api/api_orchestrator.py:51-55 | the URL built step by step is the base, the county path and the rendered query |
| Orchestrator.AppendOptional | api/api_orchestrator.py:52-55 | appending `&key=value` for a truthy value renders the query with that parameter added |
| Orchestrator.GetMcsiTimeseries | api/api_orchestrator.py:47-69 | the body of a successful fetch is returned; any failure becomes 503 "MCSI unavailable" |
| Orchestrator.GetMcsi | api/api_orchestrator.py:71-82 | the same fallback and 503 rule for one county's current index |
| Orchestrator.Items | api/api_orchestrator.py:94-95 | a single object is wrapped in a list; a list is kept |
| Orchestrator.MaxWeek | api/api_orchestrator.py:97 | the default week is the largest `week_of_season` of the history, attained by some item |
| Orchestrator.SelectWeek | api/api_orchestrator.py:97 | a non-zero given week is used; otherwise the history's maximal week; an empty history with no week fails |
| Orchestrator.UpToWeek | api/api_orchestrator.py:98 | filtering never adds items |
| Orchestrator.UpToWeekMembers | api/api_orchestrator.py:98 | an item is kept exactly when it is in the history and its week is at most the current week |
| Orchestrator.UpToWeekAppend | api/api_orchestrator.py:98 | filtering distributes over concatenation, so order is kept |
| Orchestrator.UpToWeekKeepsAll | api/api_orchestrator.py:98 | when every week is at most the current week, nothing is dropped |
| Orchestrator.Truncate | api/api_orchestrator.py:106 | `int()` truncates toward zero for both signs |
| Orchestrator.Features | api/api_orchestrator.py:102-110 | each feature is read with its default, the heat field is `int(lst_mean)`, precipitation comes from `precipitation_mean` |
| Orchestrator.BuildRawData | api/api_orchestrator.py:100-110 | the loop's dictionary is the specification map `RawData` of the filtered items |
| Orchestrator.RawDataKeys | api/api_orchestrator.py:100-110 | the keys are exactly `str(week)` of the filtered items |
| Orchestrator.RawDataLastWins | api/api_orchestrator.py:101-104 | an item not followed by another of the same week supplies that week's features |
| Orchestrator.PlanRequest | api/api_orchestrator.py:97-112 | the request carries the county, year 2025, the selected week and the features of the items up to it; it fails exactly when week selection fails |
| Orchestrator.DefaultWeekKeepsHistory | api/api_orchestrator.py:97-98 | without a week every item of a non-empty history is kept |
| Orchestrator.Assemble | api/api_orchestrator.py:122-131 | the response echoes county and week, and takes each field from the forecast with its default (0.31, "unknown", 0.835) |
| Orchestrator.WeekOf | api/api_orchestrator.py:97-98 | an item's `week_of_season`, or 0 when the key is missing |
| Orchestrator.RawData | api/api_orchestrator.py:100-110 | the `raw_data` map after storing each item's features under `str(week)` in order, a later item overwriting an earlier one of the same week |
| Orchestrator.ForecastResult | api/api_orchestrator.py:84-134 | the pipeline value: history fetch with fallback, week selection, filter, features, post with fallback and reshaping; every failure is a 500 |
| Orchestrator.GetYieldForecast | api/api_orchestrator.py:84-134 | the method computes the pipeline value `ForecastResult`: history fetch with fallback, week, filter, features, post with fallback, response; every failure is a 500 |
| Orchestrator.ForecastEchoes | api/api_orchestrator.py:122-134 | a successful forecast echoes the county and an explicit week; a failure is a 500 |
| KnowledgeBaseSeeder.Window | rag/seed_rag_knowledge_base.py:87 | `text[i:i+size]` is at most `size` long, clamps at the end and occurs at `i` |
| KnowledgeBaseSeeder.KeptStarts | rag/seed_rag_knowledge_base.py:86-90 | every kept start lies inside the text |
| KnowledgeBaseSeeder.Windows | rag/seed_rag_knowledge_base.py:87 | one window per start |
| KnowledgeBaseSeeder.KeptStartsExact | rag/seed_rag_knowledge_base.py:86-90 | a start is kept exactly when it lies on the step grid inside the text and its window passes the test; starts are increasing |
| KnowledgeBaseSeeder.OnGridIsMultiple | rag/seed_rag_knowledge_base.py:86 | the grid of `range(0, n, step)` is the multiples of the step |
| KnowledgeBaseSeeder.KeptWindowsExact | rag/seed_rag_knowledge_base.py:86-90 | the kept windows are exactly those at grid starts that pass the test, in increasing order |
| KnowledgeBaseSeeder.SplitTextIntoChunks | rag/seed_rag_knowledge_base.py:83-91 | the loop's chunks are the specification function `Chunks` |
| KnowledgeBaseSeeder.KeepWindows | rag/seed_rag_knowledge_base.py:85-91 | the loop keeps the windows of the kept starts, in order |
| KnowledgeBaseSeeder.ChunksExact | rag/seed_rag_knowledge_base.py:86-90 | a chunk is kept exactly when it starts on the `size - overlap` grid inside the text and is longer than 100 characters once stripped; chunks keep their order |
| KnowledgeBaseSeeder.ChunksEmpty | rag/seed_rag_knowledge_base.py:86 | the empty text has no chunks, and a negative step gives none |
| KnowledgeBaseSeeder.ChunksArePieces | rag/seed_rag_knowledge_base.py:87 | every chunk is a piece of the text |
| KnowledgeBaseSeeder.ExtractTextFromPdf | rag/seed_rag_knowledge_base.py:62-80 | a PDF that cannot be read gives no texts; otherwise the non-blank pages, each behind its source tag |
| KnowledgeBaseSeeder.NonBlankPages | rag/seed_rag_knowledge_base.py:70-72 | the kept page numbers are pages of the document |
| KnowledgeBaseSeeder.NonBlankPagesExact | rag/seed_rag_knowledge_base.py:70-72 | a page is kept exactly when it is not all whitespace; order is kept |
| KnowledgeBaseSeeder.TaggedPagesExact | rag/seed_rag_knowledge_base.py:70-74 | one text per kept page: `[Source: name, Page n+1]` followed by the page |
| KnowledgeBaseSeeder.AllSources | rag/seed_rag_knowledge_base.py:145 | one source name per chunk |
| KnowledgeBaseSeeder.Chunks | rag/seed_rag_knowledge_base.py:83-91 | the windows of `size` characters at every `size - overlap` step that are longer than 100 characters once stripped; none for a negative step |
| KnowledgeBaseSeeder.TaggedPages | rag/seed_rag_knowledge_base.py:70-74 | each non-blank page, in order, behind `[Source: name, Page n]` with its one-based number |
| KnowledgeBaseSeeder.BatchAt | rag/seed_rag_knowledge_base.py:156-159 | batch b: the ids, documents and metadata sliced at `[100b, min(100b+100, n))` |
| KnowledgeBaseSeeder.AddInBatches | rag/seed_rag_knowledge_base.py:153-170 | batch b holds ids, documents and metadata `[100b, 100b+100)`; every batch is sent unless one raises, and then sending stops there |
| KnowledgeBaseSeeder.BatchShape | rag/seed_rag_knowledge_base.py:156-159 | a batch's three slices have the same length, between 1 and 100 |
| KnowledgeBaseSeeder.BatchesCover | rag/seed_rag_knowledge_base.py:156-163 | the first `count` batches hold the documents up to the end of the last one |
| KnowledgeBaseSeeder.AllBatchesSendEverything | rag/seed_rag_knowledge_base.py:156-163 | when all batches are sent, their documents concatenate to all the chunks |
| KnowledgeBaseSeeder.SeedKnowledgeBase | rag/seed_rag_knowledge_base.py:94-173 | a missing directory, no PDFs, no chunks, an add that raises, or success; on success the count is the number of chunks and every chunk was sent once, in order, with its uuid and `{source, agricultural_knowledge}` metadata |
| KnowledgeBaseSeeder.CollectChunks | rag/seed_rag_knowledge_base.py:128-145 | the three lists are the chunks of every page of every PDF, fresh ids, and each chunk's source |
| KnowledgeBaseSeeder.AddTexts | rag/seed_rag_knowledge_base.py:139-145 | one PDF's texts add their chunks, ids and metadata to the lists |
| KnowledgeBaseSeeder.AddChunks | rag/seed_rag_knowledge_base.py:141-145 | one text's chunks are appended with fresh ids and their metadata |
| KnowledgeBaseSeeder.Repeat | rag/seed_rag_knowledge_base.py:145 | n copies of a value |
| KnowledgeBaseSeeder.MetadataOf | rag/seed_rag_knowledge_base.py:145 | one metadata record per source, typed `agricultural_knowledge` |
| KnowledgeBaseSeeder.MetadataOfAppend | rag/seed_rag_knowledge_base.py:145 | metadata of concatenated sources is the concatenation |
| Seed.ExtractTextFromPdf | rag/seed.py:9-19 | an unreadable PDF gives ""; otherwise the pages concatenated |
| Seed.PagesInOrder | rag/seed.py:14-15 | each page occurs in the text after all the earlier pages |
| Seed.GroupEnd | rag/seed.py:27 | the slice `words[i:i+size]` ends `size` later or at the end |
| Seed.JoinEach | rag/seed.py:27 | one chunk per group |
| Seed.SplitEach | rag/seed.py:27 | one word list per chunk |
| Seed.PdfFiles | rag/seed.py:49-50 | the listing's entries whose name ends in `.pdf`, in listing order |
| Seed.Chunked | rag/seed.py:22-29 | the words of the text joined by spaces in groups of `size`, starting every `size` words; none for a negative size |
| Seed.ChunkId | rag/seed.py:57 | `<filename>_<i>` with `i` in decimal |
| Seed.ChunkText | rag/seed.py:22-29 | the loop's chunks are the specification function `Chunked` |
| Seed.GroupsShape | rag/seed.py:26-27 | `ceil(n/size)` groups, each non-empty and at most `size` long, all but the last full; their concatenation is the words |
| Seed.GroupsCount | rag/seed.py:26 | the number of groups is the ceiling of words over size, with their sizes |
| Seed.GroupsFlatten | rag/seed.py:26-27 | the groups concatenate back to the words |
| Seed.GroupsElements | rag/seed.py:27 | every grouped word is one of the words |
| Seed.ChunkRoundTrip | rag/seed.py:24-28 | splitting each chunk and concatenating gives back the text's words; `ceil(words/size)` chunks, each of 1 to `size` words, all but the last full |
| Seed.ChunkedEmpty | rag/seed.py:24-28 | no chunks exactly when the size is negative or the text is all whitespace |
| Seed.ChunkIds | rag/seed.py:57 | one id per chunk |
| Seed.Metadatas | rag/seed.py:58 | one `{"source": filename}` per chunk |
| Seed.ChunkIdInjective | rag/seed.py:57 | `f"{filename}_{i}"` determines the file name and the index |
| Seed.ChunkIdsDistinct | rag/seed.py:57 | ids of two files' chunk lists coincide only for the same file and index |
| Seed.PlannedAdds | rag/seed.py:49-59 | one add per PDF in the listing |
| Seed.SeedKnowledgeBase | rag/seed.py:32-64 | a client failure or a missing directory sends nothing; otherwise the adds of the PDFs in listing order, all of them unless one raises, and then up to and including that one |
| Seed.PrepareAdd | rag/seed.py:51-59 | one PDF's add: its 500-word chunks, ids and metadata |
| Seed.PdfFilesPrefix | rag/seed.py:49-50 | the PDFs of a listing prefix are a prefix of the PDFs |
| Seed.PlannedAddsPrefix | rag/seed.py:49-59 | the adds of a listing prefix are a prefix of the adds |
| Seed.PdfFilesExact | rag/seed.py:49-50 | exactly the entries ending in `.pdf` are seeded, and distinct names stay distinct |
| Seed.AddsHaveDistinctIds | rag/seed.py:55-59 | every add has as many ids and metadata as documents, and no two documents in the collection share an id |
| RagService.HealthReport | rag/rag_service_simple.py:61-68 | "healthy" exactly when the store is connected and the key is a non-empty string, else "degraded"; the flags report the connection and whether a key is set |
| RagService.EmptyKeyIsNotReady | rag/rag_service_simple.py:64-66 | an empty key counts as configured but leaves the service degraded |
| RagService.Prefix | rag/rag_service_simple.py:83 | `doc[:500]` is a prefix of at most 500 characters, all of it when shorter |
| RagService.Retrieved | rag/rag_service_simple.py:77-85 | the contexts of the first result row: none without documents, a failure without distances, otherwise one per zipped pair |
| RagService.ContextStr | rag/rag_service_simple.py:88 | "No context found" without contexts, otherwise one `- text` line per context joined by newlines |
| RagService.Prompt | rag/rag_service_simple.py:96-103 | the system prompt, the question with the county and stress lines, then the knowledge-base context and `Answer:` |
| RagService.RetrieveContexts | rag/rag_service_simple.py:77-85 | the loop's contexts are the specification function `Retrieved` |
| RagService.RetrievedExact | rag/rag_service_simple.py:79-85 | nothing without documents; otherwise one context per zipped pair, text the 500-character prefix, score one minus the distance; missing distances raise |
| RagService.Bullets | rag/rag_service_simple.py:88 | one bullet per context |
| RagService.JoinStartsWithFirst | rag/rag_service_simple.py:88 | a join starts with its first part |
| RagService.ContextStrFallback | rag/rag_service_simple.py:88 | "No context found" exactly when there are no contexts; otherwise the text starts with a bullet |
| RagService.ContextStrRoundTrip | rag/rag_service_simple.py:88 | the lines of the context block are the bullets, and each bullet after `- ` is its context's text |
| RagService.CountyInfo | rag/rag_service_simple.py:91 | empty exactly when no truthy county is given; otherwise the county and week line |
| RagService.StressInfo | rag/rag_service_simple.py:90-94 | empty exactly when no stress data or an empty dictionary is given |
| RagService.PromptLayout | rag/rag_service_simple.py:96-103 | the prompt starts with the system prompt and question, ends with the knowledge-base block and `Answer:`, and holds the context just before it |
| RagService.Chat | rag/rag_service_simple.py:70-123 | 503 exactly when not ready; a failing query, missing distances or a failing model give 500; otherwise the model's answer to the prompt, the contexts and the model name |
| StressIndex.Clamp | tests/test_mcsi.py:171-175 | the result lies in [0, 100] and equals the input inside it |
| StressIndex.WaterBand | tests/test_data_processing.py:56-75 | the water band of a deficit: 0 below 0 mm, 20 below 2, 50 up to 4, 75 below 6, 100 from 6 |
| StressIndex.Pollinated | tests/test_mcsi.py:39-73 | during pollination a stress is 1.5 times its value, capped at 100; otherwise unchanged |
| StressIndex.Classify | api/test_rag_integration.py:114-122 | the status band of an index: HEALTHY, MILD, MODERATE, SEVERE, CRITICAL at 20, 40, 60 and 80 |
| StressIndex.WaterStress | tests/test_mcsi.py:14-37 | in [0, 100]; 0 for a surplus, 100 from a 6 mm deficit |
| StressIndex.HeatStress | tests/test_mcsi.py:48-61 | in [0, 100], and 0 exactly at or below 35 C |
| StressIndex.Composite | tests/test_mcsi.py:116-128 | the index always lies in [0, 100] |
| StressIndex.WeightsSumToOne | tests/test_mcsi.py:75-104 | the weights sum to one, so equal components give that value |
| StressIndex.PollinationMultiplier | tests/test_mcsi.py:39-73 | during pollination both stresses are 1.5 times the normal value, capped at 100 |
| StressIndex.WaterStressMonotone | tests/test_mcsi.py:14-37 | a larger deficit never lowers water stress |
| StressIndex.HeatStressMonotone | tests/test_mcsi.py:48-61 | hotter or more hot days never lower heat stress |
| StressIndex.CompositeMonotone | tests/test_mcsi.py:189-224 | raising any component never lowers the index |
| StressIndex.CompositeStrictlyMonotone | tests/test_mcsi.py:130-149 | inside the range, raising one component by d raises the index by its weight times d |
| StressIndex.ClassifyBands | api/test_rag_integration.py:114-122 | HEALTHY below 20, MILD below 40, MODERATE below 60, SEVERE below 80, CRITICAL from 80, each in both directions |
| StressIndex.ClassifyMonotone | api/test_rag_integration.py:114-122 | a higher index never gets a milder status |
| StressIndex.WaterStressExamples | tests/test_mcsi.py:14-46 | the suite's water cases: surplus, minimal, moderate, high, severe, and the 1.5 ratio |
| StressIndex.HeatStressExamples | tests/test_mcsi.py:48-73 | the suite's heat cases and the 1.5 ratio |
| StressIndex.CompositeExamples | tests/test_mcsi.py:75-224 | the suite's composite cases: zeros, maxima, 60, the drought range, the 20 and 15 increases, clipping, progression, recovery, compounding |
| StressIndex.ClassifyExamples | api/test_rag_integration.py:114-122 | the suite's status cases, and 99.9 is CRITICAL |
| DataProcessing.InlineHeatStress | tests/test_data_processing.py:77-87 | in [0, 100], positive exactly above 32 C |
| DataProcessing.HeatRulesDisagree | tests/test_data_processing.py:79-87 | the inline rule and the index's heat rule disagree at 34 C and 36 C |
| DataProcessing.VegetationStress | tests/test_data_processing.py:89-105 | in [0, 100]; 0 exactly above ratio 1, 100 exactly at or below 0.7 |
| DataProcessing.VegetationStressMonotone | tests/test_data_processing.py:89-108 | a healthier ratio never raises stress; 0.72/0.80 is 0.9 and gets 50 |
| DataProcessing.WaterBandExample | tests/test_data_processing.py:56-75 | a 4 mm deficit falls in the 50 band |
| DataProcessing.Aggregate | tests/test_data_processing.py:110-119 | the weighted score lies between the smallest and largest component, so in [0, 100] for components there |
| DataProcessing.AggregateExample | tests/test_data_processing.py:110-119 | 50/30/40 aggregate to 41 |
| DataProcessing.GrowingDegreeDays | tests/test_data_processing.py:132-141 | the result is `max(0, mean - base)` |
| DataProcessing.GrowingDegreeDaysExample | tests/test_data_processing.py:134-141 | 30/20 over base 10 is 15 |
| DataProcessing.WeekOfSeason | tests/test_data_processing.py:207-216 | `(doy - 121) // 7 + 1` with floor division |
| DataProcessing.Gaps | tests/test_data_processing.py:251-260 | the indices i, in order, whose next week is more than one week later |
| DataProcessing.WeekOfSeasonSpan | tests/test_data_processing.py:207-216 | week w is exactly the seven days starting at day 121 + 7(w-1), using floor division |
| DataProcessing.WeekOfSeasonExample | tests/test_data_processing.py:209-216 | day 135 is week 3 and day 121 week 1 |
| DataProcessing.FindGaps | tests/test_data_processing.py:251-260 | the loop's gaps are the specification function `Gaps` |
| DataProcessing.GapsExact | tests/test_data_processing.py:255-258 | i is reported exactly when week i+1 jumps by more than one; indices increase |
| DataProcessing.ConsecutiveWeeksHaveNoGaps | tests/test_data_processing.py:251-260 | consecutive weeks give no gaps |
| DataProcessing.GapsExample | tests/test_data_processing.py:253-260 | weeks 1..5 have no gaps; a gapped series reports each gap |
| DataProcessing.DropMissing | tests/test_data_processing.py:192 | dropping missing values never adds any |
| DataProcessing.DropMissingAppend | tests/test_data_processing.py:192 | dropping distributes over concatenation, so order is kept |
| DataProcessing.DropMissingExact | tests/test_data_processing.py:192-195 | a value is kept exactly when it was present |
| DataProcessing.DropMissingExample | tests/test_data_processing.py:188-195 | the suite's list keeps its four values |
| DataProcessing.MissingFields | tests/test_data_processing.py:234 | a field is reported exactly when it is required and absent |
| DataProcessing.MissingFieldsExample | tests/test_data_processing.py:229-236 | the complete record has no missing field |
| Interpretation.OneDecimal | api/test_rag_integration.py:133-134 | a one-decimal rendering: a point before the last digit, and a minus exactly when the reading rounds below zero |
| Interpretation.OneDecimalInjective | api/test_rag_integration.py:133-134 | readings that render alike round to the same tenth |
| Interpretation.OneDecimalExamples | api/test_rag_integration.py:133-134 | 194.2, 35.5 and 0.0 render as written, and -2.25 as -2.2 |
| Interpretation.BuildContext | api/test_rag_integration.py:124-137 | the context lines joined by newlines: county and fips, overall, water and heat indices with the status, primary driver, yield forecast, week of season, growth stages and thresholds |
| Interpretation.ContextMentions | api/test_rag_integration.py:124-137 | the context names the county, fips, index, status, forecast, week, growth stages and thresholds |
| Interpretation.FixturesValid | api/test_rag_integration.py:98-112 | the fixtures pass the data-validation checks, and the early forecast is uncertain |
| Interpretation.AdairContext | api/test_rag_integration.py:124-137 | the Adair context holds "Adair", "19001", "194.2", "35.5", "MILD" and both section titles |
| Interpretation.UnknownFipsContext | api/test_rag_integration.py:270-288 | an unknown county's fips still appears |
| Interpretation.EarlySeasonContext | api/test_rag_integration.py:326-359 | week 21 appears as `week_of_season: 21` |
| Interpretation.Recommendations | api/test_rag_integration.py:139-152 | one tagged text per triggered advice, in the order water, yield, pollination, urgent, or the routine advice when none is triggered |
| Interpretation.Advice.Text | api/test_rag_integration.py:139-152 | every recommendation opens with its tag |
| Interpretation.FlaggedIffTagged | api/test_rag_integration.py:139-152 | a tag opens some recommendation exactly when advice of that kind was triggered |
| Interpretation.TriggeredKinds | api/test_rag_integration.py:139-152 | advice is never empty, and each kind is triggered exactly when its alert holds; routine exactly when none does |
| Interpretation.RecommendationTriggers | api/test_rag_integration.py:139-152 | at least one recommendation; WATER STRESS, YIELD, POLLINATION, URGENT and ROUTINE each appear exactly when their condition holds |
| Interpretation.FlaggedInText | api/test_rag_integration.py:149-152 | a flagged tag appears in the recommendations joined by spaces |
| Interpretation.AdairRecommendations | api/test_rag_integration.py:139-152 | water index 42.3 and 194.2 against 199.2 yield WATER STRESS and YIELD |
| Interpretation.WaterAndYieldFlagged | api/test_rag_integration.py:139-152 | a water alert and a yield alert are both flagged |
| Interpretation.ExtremeRecommendations | api/test_rag_integration.py:290-324 | the extreme case flags WATER STRESS, YIELD and URGENT |
| Interpretation.UrgentFlagged | api/test_rag_integration.py:290-324 | a CRITICAL index is flagged URGENT |
| Interpretation.PollinationRecommendations | api/test_rag_integration.py:361-390 | week 30 with heat index 75 flags POLLINATION |
| Interpretation.PollinationFlagged | api/test_rag_integration.py:361-390 | heat during the pollination window is flagged |
| Interpretation.FixturePremises | api/test_rag_integration.py:20-61 | the fixtures carry the values the suite's cases rely on |
| Interpretation.Risk | api/test_rag_integration.py:154-163 | HIGH from a SEVERE or CRITICAL index or a forecast under 90% of baseline; MODERATE from a MILD or worse index or a forecast under 98% of baseline; LOW otherwise |
| Interpretation.AssessRisk | api/test_rag_integration.py:154-163 | the level, ` RISK: forecast `, the forecast to one decimal, and the spread after a plus-minus sign |
| Interpretation.RiskFormat | api/test_rag_integration.py:154-163 | the risk line opens with LOW, MODERATE or HIGH, says RISK, and carries the spread after a plus-minus sign |
| Interpretation.RiskMonotone | api/test_rag_integration.py:154-163 | a higher stress index never lowers the risk level |
| Interpretation.AdairRisk | api/test_rag_integration.py:154-163 | the Adair case is MODERATE risk with a 0.4 spread |
| Interpretation.TrackDataSources | api/test_rag_integration.py:165-176 | the provenance record: the MCSI endpoint for the county's fips, the forecast service with fips, year and week, the knowledge source and the model name |
| Interpretation.ProvenanceEchoes | api/test_rag_integration.py:165-176 | the record echoes the county's fips and week and names a Gemini model |

## Left out

- Network, timeouts, logging, CORS and FastAPI routing: each service call is a `get`/`post` oracle returning a reply or a transport error, and HTTP errors are values with their status codes.
- `httpx` `raise_for_status` is modelled as "any status outside 200..299 fails"; a body that is not JSON is the `MalformedBody` failure.
- Decoding JSON is not modelled: the MCSI history arrives as a single item or a list of items whose indicators are a string-to-real map; the forecast body's fields are optional values.
- Orchestrator.Assemble: a field present in the forecast body with an explicit JSON `null` is not distinguished from a missing one. The source's `dict.get(key, default)` returns `None` for it (api/api_orchestrator.py:126, 129, 130 give `null` for `confidence_interval`, `primary_driver` and `model_r2`), where the model gives the defaults 0.31, "unknown" and 0.835.
- Orchestrator.WeekOf: a history item whose `week_of_season` is an explicit `null` is read as week 0; in the source `max` and `<=` on `None` raise `TypeError` (api/api_orchestrator.py:97-98), which the handler turns into a 500.
- `Orchestrator.ForecastResult` treats a missing `week_of_season` as 0 and a missing `indicators` as `{}`, as the source does; an empty history with no week, where Python's `max` raises, is the `NoHistory` failure behind the 500.
- The orchestrator's health endpoint's outer `except` is modelled as a failure given to `HealthCheck`; it cannot arise from the calls the model describes.
- `connect_chromadb` (retries, sleeps, `sys.exit`) and a failing `get_or_create_collection` end the batch seeder's process; `KnowledgeBaseSeeder.SeedKnowledgeBase` models the runs that reach the collection, and `collection.count()` is not modelled.
- `KnowledgeBaseSeeder.SplitTextIntoChunks` requires `chunk_size != chunk_overlap`, because `range` with step 0 raises `ValueError` there; negative steps give no chunks, as in Python.
- `Seed.ChunkText` requires a non-zero chunk size for the same reason.
- `uuid.uuid4()` is the oracle `uuid(k)`; that fresh ids are distinct is left to it.
- PDF reading: the PDF reader is an oracle giving each page's text, or `None` when reading raises; `page.extract_text()` returning `None` is not modelled.
- `Seed.SeedKnowledgeBase` treats a raising client creation or `create_collection` as one `clientFails` flag; `delete_collection` is left out because the source ignores its failure; `os.listdir` is the given listing.
- RagService: the module-level connection and `genai.configure` are inputs (`connected`, `apiKey`); the timestamp, generation settings and `GET /` are left out; `agri_context` values are given already rendered as strings; a missing `results['documents']` row is the empty list.
- The language model is the oracle `generate`, returning its text or `None` when it raises.
- Floating point: every number is a Dafny `real`, so NaN, infinities and rounding drift (`test_float_precision`, the `pytest.approx` tolerances) are not modelled; `float(1 - dist)` is exact.
- The MCSI algorithm module (`mcsi_algorithm.py`) is not part of this model; `StressIndex` takes the behaviour its suite pins down. The water bands come from the data-processing suite's band rule, the heat rule's 35 C threshold and its per-day weights are chosen to meet every heat case, and inputs are clamped to [0, 100].
- `test_missing_data_handling` expects NaN to raise; with reals there is no NaN, so that case is not modelled.
- `test_outlier_detection`, `test_spatial_aggregation` and `test_water_deficit_accumulation` rely on numpy's mean and standard deviation over floats; they are not modelled. Date parsing (`strptime`, day of year) is not modelled either.
- The implementation of `build_context`, `generate_recommendations`, `assess_risk` and `track_data_sources` is not part of this model; `Interpretation` fixes the thresholds (water index above 40, forecast under 98% of baseline, pollination weeks 27 to 31 with heat index above 60 or land surface above 35 C, a CRITICAL index; in `Interpretation.Risk`, HIGH from a SEVERE or CRITICAL index or a forecast under 90% of baseline, MODERATE from a MILD or worse index or a forecast under 98% of baseline, LOW otherwise) and the texts so that every assertion of the integration suite holds, and its cases are proved from those choices.
- Interpretation.OneDecimal: rounds half up to one decimal, where Python's `f"{x:.1f}"` rounds the binary value half to even; the two can differ on exact ties. A negative reading that rounds to zero (such as -0.04) renders as "0.0", where Python gives "-0.0".
- Text.Lower: lowers ASCII A-Z only; Python's `str.lower()` applies Unicode case mapping, which also lowers other letters and can change the length ("\u0130" becomes two characters). Its one use is finding "gemini" in the ASCII model name.
- The provenance dictionary's keys are the fields of the `Provenance` datatype, so "the key is present" holds by construction.
- The endpoints of the integration suite that call a running service (`/health`, `/interpret`, batches, response time, the 422 validation error) are not modelled.
- `GroupsShape`, `GroupsCount` and `ChunkRoundTrip` state the number of chunks as `IsCeilQuotient`, the ceiling of words over size, rather than with division.
