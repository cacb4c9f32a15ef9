# Advanced Web Search, modelled in Dafny

This project models the "Advanced Web Search" tool of a multi-agent research
assistant. Given a research query, the tool works in four steps:

1. It asks a language model to rewrite the query into a few search queries,
   one per line. On a rate-limit error it retries up to three attempts in
   all, pausing 2s and then 4s.
2. It splits the generated text on newlines and keeps the stripped form of
   every line that is not blank.
3. It runs one web search per query, pausing half a second after each. All
   documents found go into one pool, in discovery order, with duplicates
   kept.
4. A reranking retriever scores that whole pool against the *original*
   query. The tool returns one `{content, source}` record per document the
   reranker returns.

The project has three modules:

- `PyStr` (`pystr.dfy`): the Python `str` operations the tool depends on.
  These are `strip()`, `split("\n")`, `lower()` and the substring test.
- `Tools` (`tools.dfy`): the data, the specification functions and the
  imperative methods.
  - The methods are `GenerateQueries` (the retry loop), `RetrieveAll` (the
    search loop), `FormatResults` (the output loop) and `AdvancedSearch`
    (the tool).
  - Each method is proved equal to a specification function: `Retry`,
    `Gather`, `Projection` and `Pipeline` respectively.
- `SearchProperties` (`search_properties.dfy`): what the tool promises,
  stated and proved over those functions.

The three remote services are oracles, given as a `Services` value of total
functions. They are the rewriting chain (language model), the web search and
the reranking retriever. Each call either returns a value or raises an
exception with a message. Nothing is performed: each call and each
`time.sleep` is recorded, in order, as an `Event` in a trace. The fan-out,
`k` and `top_n` are a `Config` parameter. `ToolConfig` holds the tool's own
settings (2, 1, 1).

In these places the code does something a reader might not expect, and the
model follows the code:

- The comment on the backoff (tools.py:61) says "Exponential backoff: 2s, 4s,
  6s". The code waits
  `(attempt + 1) * 2` seconds, which is linear. It never waits 6s, because
  the third rate limit is re-raised (`RetryWaitsAreTwoOrFour`,
  `RetryGivesUpOnThirdRateLimit`).
- The pool is not deduplicated (`PoolKeepsDuplicates`,
  `DuplicatesReachTheReranker`).
- A web search that raises is not caught: it ends the tool
  (`SearchFailureIsNotCaught`).
- Nothing guards against an empty pool. With no non-blank line, the
  reranking retriever is still invoked, on an empty pool
  (`EmptyPoolIsStillReranked`).
- A reranked document without a `source` metadata key ends the tool with a
  `KeyError` (`ProjectionNeedsEverySource`).

## Model

| member | source | states |
|---|---|---|
| Tools.SimpleRetriever.GetRelevantDocuments | tools.py:20-25 | whatever the query, the retriever returns every stored document, in order |
| Tools.FinalAttempt | tools.py:54-65 | the loop stops at an attempt below 3; every earlier attempt failed with a rate limit; when the loop stops before the third attempt, that attempt did not fail with a rate limit |
| Tools.GenerateQueries | tools.py:53-65 | the retry loop's result and trace (invocations and waits) are exactly those of `Retry`, the final attempt's reply after the schedule of attempts |
| Tools.SearchQueries | tools.py:74-77 | there is at most one search query per line of the generated text |
| Tools.FirstFailure | tools.py:74-77 | the index of the first query whose search raises: every search before it returns, and it raises (or it is the number of queries) |
| Tools.SearchQueriesAppend | tools.py:74-77 | the queries of two blocks of lines are the queries of each block, in order |
| Tools.GatherFails | tools.py:74-77 | a search that raises on a non-blank line ends the search loop, with the exception and the events up to that search |
| Tools.RetrieveAll | tools.py:73-79 | the search loop's pool, exception and trace are exactly those of `Gather` over the split lines |
| Tools.FormatResults | tools.py:95-102 | the output loop's result is `Projection` of the reranked documents: one record per document, or a `KeyError` for a missing source |
| Tools.AdvancedSearch | tools.py:29-102 | the tool's result and trace are exactly those of `Pipeline`: rewrite with retries, split, search, pool, rerank against the original query, project |
| PyStr.Split | tools.py:67 | the parts hold no newline, there is at least one, and joined back with newlines they give the text |
| PyStr.SplitJoin | tools.py:67 | splitting undoes joining, for parts without a separator |
| PyStr.JoinInjective | tools.py:67 | two different separator-free part lists never join to the same text |
| PyStr.StripSpec | tools.py:75-77 | `strip()` leaves a slice of the line with only whitespace around it, with no whitespace at either end; it is empty exactly when the line is all whitespace |
| PyStr.StripStripped | tools.py:75-77 | stripping twice is stripping once |
| PyStr.Lower | tools.py:60 | lower-casing keeps the length and maps every character on its own |
| PyStr.LowerSlice | tools.py:60 | lower-casing commutes with slicing |
| SearchProperties.RateLimitIsCaseInsensitive | tools.py:60 | an error counts as a rate limit exactly when "rate_limit", in any mix of cases, occurs in its message |
| SearchProperties.NoUnderscoreNoRateLimit | tools.py:60 | a message without an underscore (such as "Rate limit reached") is never treated as a rate limit |
| SearchProperties.RetryScheduleShape | tools.py:55-63 | n attempts make n invocations with the original query and n-1 waits, the i-th lasting (i+1)*2 seconds, and no search or reranking |
| SearchProperties.StopsAt | tools.py:55-65 | the loop stops at the first attempt that does not fail with a rate limit, or at the third |
| SearchProperties.RetryIsBounded | tools.py:54-65 | at least one and at most three invocations, with one wait fewer than invocations |
| SearchProperties.RetryWaitsAreTwoOrFour | tools.py:61-63 | every wait lasts 2s or 4s, never 6s, and together they last at most 6s |
| SearchProperties.RetryStopsAtFirstSuccess | tools.py:57-58 | the first invocation that returns ends the loop, and its text is the result |
| SearchProperties.RetryRaisesOtherErrorsAtOnce | tools.py:64-65 | an error that is not a rate limit is re-raised on its own attempt, with no wait after it and no further attempt |
| SearchProperties.RetryFirstOtherError | tools.py:64-65 | such an error on the first attempt ends the loop after exactly one invocation |
| SearchProperties.RetryTwoRateLimitsThenSuccess | tools.py:55-63 | two rate limits and then a success: three invocations, waits [2, 4] totalling 6s, and the third text |
| SearchProperties.RetryGivesUpOnThirdRateLimit | tools.py:60-65 | a third rate limit is re-raised after waits of 2s and 4s only |
| SearchProperties.SearchQueriesAreStripped | tools.py:75-77 | every search query is non-empty, has no whitespace at either end, and is left unchanged by stripping |
| SearchProperties.NoQueryIffAllBlank | tools.py:74-75 | there is no query at all exactly when every line is blank or whitespace |
| SearchProperties.OneQueryPerLine | tools.py:74-77 | when no line is blank there is one query per line, in line order, the stripped line |
| SearchProperties.PooledAppend | tools.py:73-77 | the pool of two blocks of queries is the first block's pool followed by the second's |
| SearchProperties.PoolKeepsDuplicates | tools.py:77 | a document found by two searches is in the pool twice |
| SearchProperties.SearchScheduleShape | tools.py:74-79 | the i-th query is searched at position 2i of the trace, with a 0.5s pause right after it |
| SearchProperties.SearchScheduleEvents | tools.py:74-79 | the searches are exactly the queries, in order; there is one 0.5s pause per query; nothing is rewritten or reranked |
| SearchProperties.GatherWhenAllSearchesReturn | tools.py:73-79 | when every search returns, the pool is every document found, query after query, and each query is searched once and followed by a 0.5s pause |
| SearchProperties.GatherStopsAtFirstFailure | tools.py:74-77 | the first search that raises ends the search loop with its exception; only the queries up to it were searched |
| SearchProperties.ProjectionIsPointwise | tools.py:95-102 | one record per reranked document, in order, holding its content and its metadata's source |
| SearchProperties.ProjectionIgnoresOtherMetadata | tools.py:97-100 | metadata other than the source has no effect on the output |
| SearchProperties.ProjectionNeedsEverySource | tools.py:99 | one document without a source turns the whole output into a `KeyError` |
| SearchProperties.RetryTraceIsQuiet | tools.py:53-65 | the retry loop neither searches nor reranks |
| SearchProperties.GatherTraceHasNoRerank | tools.py:73-79 | the search loop never reranks, whether or not a search raises |
| SearchProperties.RerankSeesOriginalQueryAndWholePool | tools.py:84-102 | once rewriting and searching succeed, the reranker is invoked once and last, with the original query and the whole pool; the output is the projection of what it returns |
| SearchProperties.RerankOnlyWithOriginalQuery | tools.py:86-92 | on every path there is at most one reranking, and it uses the original query |
| SearchProperties.EmptyPoolIsStillReranked | tools.py:73-92 | with no non-blank line, nothing is searched and the reranking retriever is still invoked, on an empty pool |
| SearchProperties.SearchFailureIsNotCaught | tools.py:74-77 | a search that raises ends the tool with that exception, and there is no reranking |
| SearchProperties.RewriteFailureStopsEverything | tools.py:64-65 | a rewriting failure ends the tool before any search or reranking |
| SearchProperties.OutputAsLongAsReranked | tools.py:92-102 | a successful output has exactly as many records as the reranking retriever returned for the original query, so it has at most `top_n` if that retriever keeps at most `top_n` |
| SearchProperties.RetryScheduleEvents | tools.py:55-63 | every event of the retry loop is an invocation with the original query and the fan-out, or a pause |
| SearchProperties.SearchScheduleSettings | tools.py:71-79 | every event of the search loop is a search with `k` or a half-second pause |
| SearchProperties.PipelineUsesConfig | tools.py:38-92 | every call the tool makes uses its settings: the fan-out for the rewriting, `k` for each search, `top_n` for the reranking |
| SearchProperties.ToolSettings | tools.py:39-71 | the tool as shipped asks for 2 rewritten queries, 1 document per search and the top 1 document |
| SearchProperties.TwoLineRun | tools.py:29-102 | a whole run on two lines gives both records in order, after one invocation, two searches each with a pause, and one reranking |
| SearchProperties.DuplicatesReachTheReranker | tools.py:73-92 | a document found by both queries reaches the reranker twice |

## Left out

- The language model, the web search and the reranker are oracles. Their
  internals are not modelled: prompt text, model names, scoring, and how
  the reranker chooses and orders its `top_n` documents. Any behaviour the
  reranking library has on an empty pool is part of that oracle.
- `time.sleep` is recorded as a `Sleep` event and not performed. The
  `print` calls are not modelled.
- `OutputAsLongAsReranked`: the bound of `top_n` is an assumption about the
  reranker oracle, not something the tool enforces.
- `PyStr.Lower`: lower-cases only the ASCII letters. For the "rate_limit"
  test this gives the same answer as Python's full Unicode `lower()`. No
  other character lowers to a single character of "rate_limit", and the
  two-character lowering of U+0130 ends in a combining dot, which never
  matches.
- The rewriting chain's exceptions are represented by their message only
  (`str(e)`). The exception's type is not modelled, because the code only
  inspects the message.
- `app.py` is not part of this model. It is a stand-alone script that runs
  the same steps with no retry and no pause, with settings 3 queries,
  `k=5` and `top_n=3`.
- The agent and task definitions, the crew runner, the web front end and
  the evaluation script are not part of this model. They are
  configuration and I/O around the tool.
- Loading environment variables and API keys is left out.
