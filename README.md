# Knowledge-retrieval node, modelled in Dafny

This project models the decision logic of the workflow node that retrieves passages from knowledge bases ("datasets"). One run of the node goes through these steps:

- It checks the query variable.
- It applies the tenant's sliding-window rate limit.
- It picks the datasets that can serve the request.
- It resolves metadata filters. These are either disabled, extracted by a language model ("automatic"), or configured by hand ("manual"). Each filter is compiled into a predicate over a document's metadata. The matched document ids are grouped by dataset.
- It resolves the retrieval settings into a single-dataset or a multiple-dataset engine call.
- It merges the engine's external and internal results into one list, sorted by score with positions 1..N.

The database tables, the Redis window, the model manager and the language model are represented by plain values:

- record sequences;
- a per-tenant timestamp set;
- a lookup from model to status and schema;
- the already-parsed model answer.

The template resolver, the retrieval engine and the record formatter are given functions.

Files, one module each:

- `common.dfy`: Option, Result and the exception classes.
- `records.dfy`: datasets, documents and metadata fields.
- `metadata_values.dfy`: metadata and condition values, their text and their numeric cast.
- `rate_limit.dfy`: the `RateLimiter` class.
- `availability.dfy`: the datasets query.
- `like_pattern.dfy`: SQL `LIKE`.
- `condition_compiler.dfy`: the operator compiler and the `FilterList` class.
- `whitespace.dfy`: value normalisation.
- `metadata_filter.dfy`: mode dispatch, manual and automatic filters, the document query and the grouping loop.
- `model_config.dfy`: the model checks.
- `retrieval_config.dfy`: the single/multiple plan.
- `score_sort.dfy`: the stable descending sort.
- `fusion.dfy`: the result list.
- `node.dfy`: `_fetch_dataset_retriever` and `_run`.

Where the code does things step by step, the model does too:

- The limiter mutates its window map and its audit log.
- `FilterList.Process` appends in place.
- The filter, grouping and fusion loops are methods.
- Positions are written into an array.

Each such method is proved equal to a specification function, and the properties are proved as lemmas about those functions.

Modelling conventions:

- A key missing from a document's metadata is SQL NULL: every predicate on it is false except "empty".
- `CAST(... AS FLOAT)` of a text that is not a number is modelled as a failed comparison.
- Numbers in metadata and condition values are integers. Scores, thresholds and weights are reals.
- Retrieval modes are compared with the strings "single" and "multiple", the values of the retrieve-strategy enumeration.
- Model modes are "chat" and "completion", the values of the model-mode enumeration. Constructing the enumeration from any other string raises ValueError; that is the `ModelMode(...)` call at `api/core/workflow/nodes/knowledge_retrieval/knowledge_retrieval_node.py:705`.

## Model

| member | source | states |
|---|---|---|
| RateLimit.RateLimiter.Check | api/core/workflow/nodes/knowledge_retrieval/knowledge_retrieval_node.py:170-192 | With the limit enabled, the request is admitted exactly when the tenant's window, after inserting now and dropping every entry at or below now − 60000, holds at most `limit` entries. The window is replaced by that set and no other tenant's window changes. The audit log gains exactly one `knowledge` record when the request is rejected and none otherwise. A disabled policy admits and changes nothing. |
| RateLimit.SlideHoldsNow | api/core/workflow/nodes/knowledge_retrieval/knowledge_retrieval_node.py:173-176 | The request's own timestamp is always in the window, so the count is at least 1. |
| RateLimit.LimitBelowOneRejects | api/core/workflow/nodes/knowledge_retrieval/knowledge_retrieval_node.py:176-177 | A limit below 1 rejects every request. |
| RateLimit.SlideKeepsRecent | api/core/workflow/nodes/knowledge_retrieval/knowledge_retrieval_node.py:174-175 | A timestamp stays in the window exactly when it is later than now − 60000. |
| RateLimit.SameMillisecondSharesEntry | api/core/workflow/nodes/knowledge_retrieval/knowledge_retrieval_node.py:173-176 | A second request in the same millisecond leaves the window and its count unchanged, because member and score are both the timestamp. |
| RateLimit.BurstWindow | api/core/workflow/nodes/knowledge_retrieval/knowledge_retrieval_node.py:173-176 | After a quiet minute, a burst of strictly increasing timestamps spanning less than 60 s leaves exactly the burst's timestamps in the window. |
| RateLimit.RollingWindowAdmitsExactlyLimit | api/core/workflow/nodes/knowledge_retrieval/knowledge_retrieval_node.py:170-177 | In such a burst, the k-th request is admitted exactly when k <= limit. |
| RateLimit.KeyInjective | api/core/workflow/nodes/knowledge_retrieval/knowledge_retrieval_node.py:172 | Distinct tenants use distinct `rate_limit_` keys. |
| Availability.AvailableDatasets | api/core/workflow/nodes/knowledge_retrieval/knowledge_retrieval_node.py:229-257 | A dataset is in the result exactly when it passes the query's row filter, and the result is no longer than the table. |
| Availability.AvailableDatasetsConcat | api/core/workflow/nodes/knowledge_retrieval/knowledge_retrieval_node.py:229-257 | The query distributes over concatenation of the table, so the result keeps table order. The query has no ORDER BY; table order is the model's choice for the row order the database returns. |
| Availability.CountPositiveIff | api/core/workflow/nodes/knowledge_retrieval/knowledge_retrieval_node.py:229-242 | The grouped count is positive exactly when the dataset has a completed, enabled, non-archived document and the dataset was requested. |
| Availability.AvailableIff | api/core/workflow/nodes/knowledge_retrieval/knowledge_retrieval_node.py:229-257 | A dataset is retrievable exactly when its tenant is the caller's, its id was requested, and either it is external or it has a completed, enabled, non-archived document. |
| Availability.InternalWithoutDocumentsExcluded | api/core/workflow/nodes/knowledge_retrieval/knowledge_retrieval_node.py:229-257 | A non-external dataset with no queryable document is never retrieved from. |
| LikePattern.ContainsPattern | api/core/workflow/nodes/knowledge_retrieval/knowledge_retrieval_node.py:581-592 | The pattern `%v%` matches exactly the texts that contain the wildcard-free value v. |
| LikePattern.PrefixPattern | api/core/workflow/nodes/knowledge_retrieval/knowledge_retrieval_node.py:593-598 | The pattern `v%` matches exactly the texts that start with v. |
| LikePattern.SuffixPattern | api/core/workflow/nodes/knowledge_retrieval/knowledge_retrieval_node.py:599-604 | The pattern `%v` matches exactly the texts that end with v. |
| ConditionCompiler.CompileDefinedIff | api/core/workflow/nodes/knowledge_retrieval/knowledge_retrieval_node.py:575-628 | A condition yields a predicate exactly when its value is not None and its operator is one of the 18 recognised strings. A None value yields nothing for every operator, including "empty". |
| ConditionCompiler.PresenceIgnoresValue | api/core/workflow/nodes/knowledge_retrieval/knowledge_retrieval_node.py:615-618 | "empty" and "not empty" do not depend on the value, and they hold exactly when the key is absent or present. |
| ConditionCompiler.ContainsSemantics | api/core/workflow/nodes/knowledge_retrieval/knowledge_retrieval_node.py:581-592 | "contains" holds exactly when the field is present and its text contains the value. "not contains" holds exactly when the field is present and its text does not contain it. |
| ConditionCompiler.AffixSemantics | api/core/workflow/nodes/knowledge_retrieval/knowledge_retrieval_node.py:593-604 | "start with" and "end with" hold exactly when the field is present and its text has the value as a prefix or as a suffix. |
| ConditionCompiler.EqualsSemantics | api/core/workflow/nodes/knowledge_retrieval/knowledge_retrieval_node.py:605-609 | "=" and "is" with a string compare the stored JSON value with that string. With a number they match a stored number exactly when the two are equal. They never hold on an absent key. |
| ConditionCompiler.NotEqualsSemantics | api/core/workflow/nodes/knowledge_retrieval/knowledge_retrieval_node.py:610-614 | "is not" and "≠" are the negated comparison, on a present key only. |
| ConditionCompiler.OrderSemantics | api/core/workflow/nodes/knowledge_retrieval/knowledge_retrieval_node.py:619-626 | "before"/"<", "after"/">", "≤"/"<=" and "≥"/">=" compare a stored number with the value by <, >, <= and >=. |
| ConditionCompiler.NonNumericFailsComparison | api/core/workflow/nodes/knowledge_retrieval/knowledge_retrieval_node.py:619-626 | A stored text that is not a number fails every order comparison. |
| ConditionCompiler.FilterList.Process | api/core/workflow/nodes/knowledge_retrieval/knowledge_retrieval_node.py:572-629 | Appends the compiled predicate, if any, and leaves every earlier entry unchanged. It returns the list exactly when the value is not None. |
| MetadataValues.DecimalRoundTrip | api/core/workflow/nodes/knowledge_retrieval/knowledge_retrieval_node.py:605-609 | Casting the decimal text of an integer back to a number gives the integer. |
| MetadataValues.CastOfStoredNumber | api/core/workflow/nodes/knowledge_retrieval/knowledge_retrieval_node.py:605-609 | A number stored in the metadata casts to itself, through its `->>` text. |
| Whitespace.TrimStart | api/core/workflow/nodes/knowledge_retrieval/knowledge_retrieval_node.py:467 | `lstrip()` returns a suffix that is empty or starts with a non-whitespace character, and every character it removes is whitespace, so it is the longest such suffix. |
| Whitespace.TrimEnd | api/core/workflow/nodes/knowledge_retrieval/knowledge_retrieval_node.py:467 | `rstrip()` returns a prefix that is empty or ends with a non-whitespace character, and every character it removes is whitespace, so it is the longest such prefix. |
| Whitespace.CollapseRun | api/core/workflow/nodes/knowledge_retrieval/knowledge_retrieval_node.py:467 | A maximal run of `\r`, `\n` and `\t` between text that does not end and text that does not start with one becomes exactly one space. |
| Whitespace.NormalizeShape | api/core/workflow/nodes/knowledge_retrieval/knowledge_retrieval_node.py:467 | A normalised value has no `\r`, `\n` or `\t`, and no whitespace at either end. |
| Whitespace.NormalizeKeepsNonSpace | api/core/workflow/nodes/knowledge_retrieval/knowledge_retrieval_node.py:467 | Normalisation keeps every non-whitespace character, in order. |
| Whitespace.NormalizeFixesNormal | api/core/workflow/nodes/knowledge_retrieval/knowledge_retrieval_node.py:467 | A value that is already normalised is left unchanged. |
| Whitespace.NormalizeIdempotent | api/core/workflow/nodes/knowledge_retrieval/knowledge_retrieval_node.py:467 | Normalising twice gives the same value as normalising once. |
| MetadataFilter.FieldNames | api/core/workflow/nodes/knowledge_retrieval/knowledge_retrieval_node.py:509-510 | A name is known exactly when some metadata field of a requested dataset has that name. |
| MetadataFilter.KnownFilters | api/core/workflow/nodes/knowledge_retrieval/knowledge_retrieval_node.py:559-567 | Keeps at most one filter per model entry, and every kept filter names a known field. |
| MetadataFilter.KnownFiltersConcat | api/core/workflow/nodes/knowledge_retrieval/knowledge_retrieval_node.py:559-567 | Keeping known entries distributes over concatenation, so kept filters stay in model-output order. |
| MetadataFilter.KnownFiltersComplete | api/core/workflow/nodes/knowledge_retrieval/knowledge_retrieval_node.py:559-567 | Every entry that names a known field is kept. |
| MetadataFilter.AutomaticFiltersDegrade | api/core/workflow/nodes/knowledge_retrieval/knowledge_retrieval_node.py:505-570 | Once the metadata model passes its checks and its mode is valid, an error raised while building the prompt propagates, and otherwise extraction succeeds. A failed model call or parse, and an answer with no `metadata_map`, give no filters. Every kept filter names a field of a requested dataset. |
| MetadataFilter.ManualValueResolution | api/core/workflow/nodes/knowledge_retrieval/knowledge_retrieval_node.py:457-469 | A resolved string value is free of `\r`, `\n` and `\t` and trimmed. A resolved number stays that number. Any other segment type raises. None values, numeric values and the values of "empty"/"not empty" pass through unchanged. |
| MetadataFilter.ManualErrorPropagates | api/core/workflow/nodes/knowledge_retrieval/knowledge_retrieval_node.py:455-469 | The first resolution error aborts the manual loop with that error. |
| MetadataFilter.AsWrittenAgreesWithoutNone | api/core/workflow/nodes/knowledge_retrieval/knowledge_retrieval_node.py:455-486 | When no condition has a None value, the loop as written and the corrected loop produce the same conditions and filters, and succeed together. |
| MetadataFilter.NoneValueDiscardsEarlierFilter | api/core/workflow/nodes/knowledge_retrieval/knowledge_retrieval_node.py:477-483 | Counterexample: as written, a valueless "empty" condition after a "contains" condition drops the "contains" filter. The corrected loop keeps it. |
| MetadataFilter.NoneValueThenConditionRaises | api/core/workflow/nodes/knowledge_retrieval/knowledge_retrieval_node.py:477-483 | Counterexample: as written, a "contains" condition after a valueless condition raises AttributeError. The corrected loop yields the filter. |
| MetadataFilter.AutoConditions | api/core/workflow/nodes/knowledge_retrieval/knowledge_retrieval_node.py:432-446 | Records one condition per kept filter, in order, carrying its name, operator and value. |
| MetadataFilter.DocumentQuery | api/core/workflow/nodes/knowledge_retrieval/knowledge_retrieval_node.py:490-498 | A document is returned exactly when its dataset is requested, it is completed, enabled and not archived, and it passes the AND or OR of the filters. An empty filter list applies no WHERE clause. |
| MetadataFilter.NoFilterKeepsEligible | api/core/workflow/nodes/knowledge_retrieval/knowledge_retrieval_node.py:490-498 | With no filter, every eligible document is returned, in table order (the model's choice, as the query has no ORDER BY), whatever the logical operator. |
| MetadataFilter.GroupedMeaning | api/core/workflow/nodes/knowledge_retrieval/knowledge_retrieval_node.py:500-502 | The grouped map has a key for exactly the datasets of the matched documents. Each key maps to that dataset's document ids, in query order, which the model takes to be table order. |
| MetadataFilter.GroupByDataset | api/core/workflow/nodes/knowledge_retrieval/knowledge_retrieval_node.py:498-502 | The loop gives None exactly when no document matched. Otherwise it gives the map of dataset ids to document ids described in the row above. |
| MetadataFilter.ModeDispatch | api/core/workflow/nodes/knowledge_retrieval/knowledge_retrieval_node.py:426-489 | "disabled" returns (None, None). Any mode other than disabled, automatic and manual raises ValueError("Invalid metadata filtering mode"). |
| MetadataFilter.AutomaticDefaultsToOr | api/core/workflow/nodes/knowledge_retrieval/knowledge_retrieval_node.py:428-497 | In automatic mode without configured conditions, both the condition group and the filters are joined with "or". |
| MetadataFilter.AllowlistMeaning | api/core/workflow/nodes/knowledge_retrieval/knowledge_retrieval_node.py:415-503 | In automatic mode and in manual mode, with or without configured conditions, once the filters resolve: the applied filters are the kept suggestions, the configured conditions, or none; the allowlist is None exactly when no document passes them; otherwise every matched document id is listed under its own dataset id. |
| MetadataFilter.AutomaticLoop | api/core/workflow/nodes/knowledge_retrieval/knowledge_retrieval_node.py:432-446 | The automatic loop's filter list and recorded conditions are exactly `AutoPredicates` and `AutoConditions` of the kept filters. |
| MetadataFilter.ManualLoop | api/core/workflow/nodes/knowledge_retrieval/knowledge_retrieval_node.py:453-487 | The manual loop returns exactly the corrected `ManualFilters`: the recorded conditions and the filter list, or the first resolution error. |
| MetadataFilter.GetMetadataFilterCondition | api/core/workflow/nodes/knowledge_retrieval/knowledge_retrieval_node.py:415-503 | The method, with its loops over kept and configured conditions and the FilterList, returns exactly the specification `FilterConditionOf`. |
| ModelConfig.GetModelConfig | api/core/workflow/nodes/knowledge_retrieval/knowledge_retrieval_node.py:646-703 | A returned configuration carries the requested provider, model and mode, and the schema the provider reports. |
| ModelConfig.ModelConfigOkIff | api/core/workflow/nodes/knowledge_retrieval/knowledge_retrieval_node.py:666-691 | The configuration is usable exactly when the model exists, its status is none of NO_CONFIGURE, NO_PERMISSION and QUOTA_EXCEEDED, a mode is set and a schema exists. |
| ModelConfig.StatusErrorKinds | api/core/workflow/nodes/knowledge_retrieval/knowledge_retrieval_node.py:669-674 | Each blocking status raises its own exception class. |
| RetrievalConfig.PlanningStrategyFor | api/core/workflow/nodes/knowledge_retrieval/knowledge_retrieval_node.py:276-281 | ROUTER exactly when the model features include TOOL_CALL or MULTI_TOOL_CALL, else REACT_ROUTER. |
| RetrievalConfig.RerankingArguments | api/core/workflow/nodes/knowledge_retrieval/knowledge_retrieval_node.py:298-327 | Raises exactly for "weighted_score" without weights. Weights are passed exactly for "weighted_score". The reranking model, or None, is passed only for "reranking_model". |
| RetrievalConfig.MultiplePlanArguments | api/core/workflow/nodes/knowledge_retrieval/knowledge_retrieval_node.py:295-342 | A multiple plan carries the configured top-k, reranking mode and flag, and the reranking arguments. Its threshold is the configured one, or 0.0 when unset. |
| RetrievalConfig.WeightedScoreNeedsWeights | api/core/workflow/nodes/knowledge_retrieval/knowledge_retrieval_node.py:307-309 | "weighted_score" without weights raises ValueError("weights is required") and plans no retrieval. |
| RetrievalConfig.MissingConfigRaises | api/core/workflow/nodes/knowledge_retrieval/knowledge_retrieval_node.py:263-297 | Single mode without its configuration raises ValueError("single_retrieval_config is required"). Multiple mode without its configuration raises ValueError("multiple_retrieval_config is required"). |
| RetrievalConfig.SinglePlanIff | api/core/workflow/nodes/knowledge_retrieval/knowledge_retrieval_node.py:263-294 | A single plan exists exactly when the config is present and its model passes the model checks. Its strategy is ROUTER exactly when the model can call tools. |
| Fusion.ProviderItems | api/core/workflow/nodes/knowledge_retrieval/knowledge_retrieval_node.py:343-344 | Keeps exactly the items of one provider. |
| Fusion.ProviderItemsConcat | api/core/workflow/nodes/knowledge_retrieval/knowledge_retrieval_node.py:343-344 | Selecting a provider distributes over concatenation, so the kept items are in engine order. |
| Fusion.ExternalSources | api/core/workflow/nodes/knowledge_retrieval/knowledge_retrieval_node.py:347-363 | Produces one source per external item, in order. |
| Fusion.FirstDataset | api/core/workflow/nodes/knowledge_retrieval/knowledge_retrieval_node.py:370 | Finds a dataset exactly when one with that id exists. The result has that id. |
| Fusion.FirstLiveDocument | api/core/workflow/nodes/knowledge_retrieval/knowledge_retrieval_node.py:371-379 | Finds a document exactly when an enabled, non-archived one with that id exists. |
| Fusion.InternalSource | api/core/workflow/nodes/knowledge_retrieval/knowledge_retrieval_node.py:369-404 | An internal record yields a source exactly when its dataset and an enabled, non-archived document with its document id both resolve. |
| Fusion.CollectedProps | api/core/workflow/nodes/knowledge_retrieval/knowledge_retrieval_node.py:343-404 | Every collected source is unnumbered. Every internal one carries its segment's dataset id and resolves to a dataset and a live document. |
| Fusion.ExternalDocumentIdFallback | api/core/workflow/nodes/knowledge_retrieval/knowledge_retrieval_node.py:353-355 | An external source's document id is its own id, or its title when the id is unset or empty. Its data source type is "external". |
| Fusion.InternalContentAndScore | api/core/workflow/nodes/knowledge_retrieval/knowledge_retrieval_node.py:391-403 | An internal score is never missing and is 0.0 when unset. The content is `question:<c> \nanswer:<a>` exactly when the chunk has a non-empty answer, and `<c>` otherwise. |
| Fusion.RankedOrderAndPositions | api/core/workflow/nodes/knowledge_retrieval/knowledge_retrieval_node.py:405-412 | The result has one entry per collected source, in non-increasing score order (a missing score counts as 0.0), with positions exactly 1..N. |
| Fusion.RankedPermutation | api/core/workflow/nodes/knowledge_retrieval/knowledge_retrieval_node.py:405-412 | Without their positions, the entries are a permutation of the collected sources. Every internal entry resolves. |
| Fusion.RankedStable | api/core/workflow/nodes/knowledge_retrieval/knowledge_retrieval_node.py:405-410 | Among entries of equal score, all external entries come before all internal ones, and each group keeps its input order. |
| Fusion.SplitByProvider | api/core/workflow/nodes/knowledge_retrieval/knowledge_retrieval_node.py:343-344 | The two comprehensions return the dify and external items. |
| Fusion.BuildSources | api/core/workflow/nodes/knowledge_retrieval/knowledge_retrieval_node.py:345-404 | The two loops build the external sources, followed by the internal ones when there are dify items. |
| Fusion.AssignPositions | api/core/workflow/nodes/knowledge_retrieval/knowledge_retrieval_node.py:411-412 | Writes position i+1 into entry i in place and changes nothing else. |
| Fusion.FuseAndRank | api/core/workflow/nodes/knowledge_retrieval/knowledge_retrieval_node.py:343-413 | The fusion code returns exactly `Ranked`, the specification about which RankedOrderAndPositions, RankedPermutation and RankedStable are proved. |
| ScoreSort.SortSorted | api/core/workflow/nodes/knowledge_retrieval/knowledge_retrieval_node.py:406-410 | The sort's result is in non-increasing key order. |
| ScoreSort.SortPermutation | api/core/workflow/nodes/knowledge_retrieval/knowledge_retrieval_node.py:406-410 | The sort's result is a permutation of its input. |
| ScoreSort.SortStable | api/core/workflow/nodes/knowledge_retrieval/knowledge_retrieval_node.py:406-410 | Elements with equal keys keep their input order. |
| Node.OutcomeIff | api/core/workflow/nodes/knowledge_retrieval/knowledge_retrieval_node.py:153-220 | The node succeeds exactly when the query is a non-empty string, the request is admitted and retrieval raises nothing, and then it returns the retrieved list. A retrieval error is reported with its message and class name. A rejection is reported as RateLimitExceeded. |
| Node.FetchErrorOrder | api/core/workflow/nodes/knowledge_retrieval/knowledge_retrieval_node.py:258-342 | A metadata-filter error is raised before any retrieval-settings error. A retrieval mode other than single or multiple calls no engine and returns an empty list. |
| Node.FetchRanked | api/core/workflow/nodes/knowledge_retrieval/knowledge_retrieval_node.py:224-413 | A successful retrieval is in non-increasing score order with positions 1..N, and every internal entry resolves to a dataset and a live document. |
| Node.FetchDatasetRetriever | api/core/workflow/nodes/knowledge_retrieval/knowledge_retrieval_node.py:224-413 | The method returns exactly the specification `Fetch`: availability, metadata filter, plan, engine call and fusion, with the first error raised. |
| Node.Run | api/core/workflow/nodes/knowledge_retrieval/knowledge_retrieval_node.py:153-222 | The result is `Outcome` for the limiter's decision on the old window. The limiter is untouched when the query is missing or empty. For a non-empty query the window map is unchanged when the policy is disabled, and otherwise has the tenant's window replaced by the slid window. The audit log grows by exactly one record when a non-empty query is rejected. |

## Left out

- Database sessions, commits and query construction are left out; the tables are given as record sequences. For the same reason the bind-parameter names built from `sequence` are not modelled.
- Redis round trips and their atomicity across concurrent requests are left out; the window is single-threaded state in `RateLimiter`.
- The clock is left out: the current millisecond is a parameter. The feature service's rate-limit policy is also a parameter.
- Prompt building, `LLMNode.fetch_prompt_messages`, `invoke_llm` and JSON-in-markdown parsing are left out. Their outcome is the `ModelAnswer` input. It holds the error raised while the prompt was built, if any; that error propagates, because those calls come before the guarded block. It also holds the parsed answer, which is Err when the model call or the parsing raised inside the block. The unreachable `InvalidModelTypeError` branch of the prompt template is also left out.
- The completion-params "stop" handling in `get_model_config` has no effect on any decision modelled here, so it is left out.
- `DatasetRetrieval.single_retrieve` / `multiple_retrieve`, `RetrievalService.format_retrieval_documents` and `get_sign_content` are foreign calls; they are given functions or fields.
- For the single plan, `get_model_schema` is called twice, and the model assumes the two calls agree. The `if model_schema:` guard therefore always holds after `get_model_config` has succeeded.
- Template resolution with `convert_template(...).value[0]` is left out; it is a given function that returns the first segment.
- JSON escaping of bound string parameters is left out; a string condition is compared with the stored text.
- A NULL `doc_metadata` column and JSON `null` stored values are left out; metadata is a map whose absent keys are NULL.
- Floating point is left out, and so is what the database does when it casts a non-numeric text. The model uses integers for metadata numbers and `real` for scores.
- LikePattern.Matches: a pattern that ends in a lone backslash is an error in PostgreSQL, raised when the query runs, and would fail the node. In the model it matches nothing, so that document is filtered out and the run succeeds. The compiler builds such a pattern from an "end with" value that ends in a backslash.
- Row order of the datasets and documents queries: they have no ORDER BY, so the database decides the order. The model returns rows in table order, the order of the record sequences.
- LikePattern.ContainsPattern: stated only for values without `%`, `_` or `\`. The compiler passes such values into the pattern unescaped, and `Matches` gives them their wildcard meaning.
- LikePattern.PrefixPattern: the same restriction to values without wildcards.
- LikePattern.SuffixPattern: the same restriction to values without wildcards.
- ConditionCompiler.ContainsSemantics: the same restriction; for other values `Eval` still gives the wildcard semantics.
- ConditionCompiler.AffixSemantics: the same restriction; for other values `Eval` still gives the wildcard semantics.
- MetadataFilter.GetMetadataFilterCondition: uses the corrected manual loop `ManualFilters`, not the loop as written (see Findings). For the manual conditions `[("year","empty",None), ("author","contains","li")]` the code raises AttributeError, while the model applies the contains filter.
- Node.FetchDatasetRetriever: the same corrected manual loop, so on those conditions it returns the filtered list where the code fails.
- Node.Run: the same corrected manual loop, so on those conditions it succeeds where the code reports a failed run with AttributeError.
- Pydantic validation of node data and conditions is left out.
- The constant metadata entries `_source` and `retriever_from` are left out.
- Node plumbing is left out: the constructor, getters, `version`, the variable-selector mapping, logging and closing the session.
- The Korean UI string table under `web/i18n` contains no logic and is left out.

## Findings

| source | as written | input that shows it | evidently intended | confidence | as-written member | corrected member |
|---|---|---|---|---|---|---|
| api/core/workflow/nodes/knowledge_retrieval/knowledge_retrieval_node.py:477-483 | Manual mode rebinds `filters` to the return value of `_process_metadata_filter_func`, which returns None for a None value. The filters collected so far are lost, so no filter is applied. A later condition that compiles calls `append` on None and raises AttributeError. | `[("author","contains","li"), ("year","empty",None)]` applies no filter. `[("year","empty",None), ("author","contains","li")]` raises AttributeError. | A valueless condition adds nothing, and the other conditions still filter, as in automatic mode, which ignores the return value. | not executed | MetadataFilter.ManualFiltersAsWritten | MetadataFilter.ManualFilters |
