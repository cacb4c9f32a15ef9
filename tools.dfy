/** The "Advanced Web Search" tool: rewrite the research query into several search
    queries (retrying on rate limits), search the web once per query, pool every
    document found, rerank the pool against the original query and hand back
    `{content, source}` records.

    The three remote services (the query-rewriting language model, the web search
    and the reranker) are oracles, total functions given as a `Services` value.
    Every call to them and every pause is recorded, in order, in a trace of
    `Event`s instead of being performed. */
module Tools {
  import opened PyStr

  /** `max_retries`: attempts at the query-rewriting call. */
  const MaxRetries: nat := 3
  /** Seconds paused after each web search. */
  const SearchPause: real := 0.5
  /** The metadata key a result's source is read from. */
  const SourceKey: string := "source"
  /** The marker looked for, lower-cased, in an error message. */
  const RateLimitMarker: string := "rate_limit"

  /** A retrieved document: its text and its metadata. */
  datatype Document = Document(pageContent: string, metadata: map<string, string>)

  /** One record of the tool's output. */
  datatype SearchResult = SearchResult(content: string, source: string)

  /** What one call to a remote service does: return a value or raise an
      exception whose `str()` is `message`. */
  datatype Reply<T> = Returned(value: T) | Raised(message: string)

  /** The exception the tool itself ends with. */
  datatype Failure =
    | RewriteFailed(message: string)  // re-raised from the query-rewriting call
    | SearchFailed(message: string)   // raised by a web search, never caught
    | RerankFailed(message: string)   // raised by the reranking retriever
    | MissingKey(key: string)         // `KeyError` reading a result's metadata

  datatype Result<T> = Ok(value: T) | Err(failure: Failure)

  /** Something the tool does that is visible from outside. */
  datatype Event =
    | Rewrite(query: string, fanOut: nat)                // one invocation of the rewriting chain
    | Sleep(seconds: real)                               // one `time.sleep`
    | Search(query: string, k: nat)                      // one web search
    | Rerank(query: string, pool: seq<Document>, topN: nat) // the reranking retriever's invocation

  /** A result together with the events that led to it. */
  datatype Run<T> = Run(result: Result<T>, trace: seq<Event>)

  /** How many rewritten queries are asked for, how many documents each search
      returns, how many documents the reranker keeps. */
  datatype Config = Config(fanOut: nat, k: nat, topN: nat)

  /** The settings of the tool: 2 queries, `k=1`, `top_n=1`. */
  const ToolConfig := Config(2, 1, 1)

  /** The remote services. `rewrite(query, fanOut, n)` is the outcome of the n-th
      (0-based) invocation of the rewriting chain; `search(query, k)` a web search;
      `rerank(query, pool, topN)` the reranking retriever over a pool. */
  datatype Services = Services(
    rewrite: (string, nat, nat) -> Reply<string>,
    search: (string, nat) -> Reply<seq<Document>>,
    rerank: (string, seq<Document>, nat) -> Reply<seq<Document>>)

  /** The retriever over a fixed list of documents that the reranker wraps. */
  datatype SimpleRetriever = SimpleRetriever(documents: seq<Document>) {
    /** Whatever the query, the stored documents, all of them, in order. */
    function GetRelevantDocuments(query: string): (r: seq<Document>)
      ensures r == documents
    {
      documents
    }
  }

  // ---------------------------------------------------------------------------
  // Step 1: rewriting the query, with a retry on rate limits

  /** An error message is classified as a rate limit when its lower-cased form
      contains "rate_limit". */
  predicate IsRateLimit(message: string) {
    Contains(Lower(message), RateLimitMarker)
  }

  predicate RateLimited<T>(reply: Reply<T>) {
    reply.Raised? && IsRateLimit(reply.message)
  }

  /** Seconds waited after a rate-limited failure on 0-based attempt `attempt`. */
  function Backoff(attempt: nat): real {
    ((attempt + 1) * 2) as real
  }

  /** The 0-based attempt at which the retry loop stops, looking from `attempt`
      on: the first one that does not fail with a rate limit, or the last one
      allowed. */
  function FinalAttempt(svc: Services, query: string, fanOut: nat, attempt: nat): (last: nat)
    requires attempt < MaxRetries
    ensures attempt <= last < MaxRetries
    ensures forall i :: attempt <= i < last ==> RateLimited(svc.rewrite(query, fanOut, i))
    ensures last < MaxRetries - 1 ==> !RateLimited(svc.rewrite(query, fanOut, last))
    decreases MaxRetries - attempt
  {
    if attempt == MaxRetries - 1 || !RateLimited(svc.rewrite(query, fanOut, attempt)) then attempt
    else FinalAttempt(svc, query, fanOut, attempt + 1)
  }

  /** The events of `n` attempts: an invocation each, and between two of them the
      wait that follows the earlier one. */
  function RetrySchedule(query: string, fanOut: nat, n: nat): seq<Event>
    requires n > 0
  {
    if n == 1 then [Rewrite(query, fanOut)]
    else RetrySchedule(query, fanOut, n - 1) + [Sleep(Backoff(n - 2)), Rewrite(query, fanOut)]
  }

  /** The outcome of the retry loop: the final attempt's reply, raised or
      returned, after the schedule of attempts up to it. */
  function Retry(svc: Services, query: string, fanOut: nat): Run<string> {
    var last := FinalAttempt(svc, query, fanOut, 0);
    var reply := svc.rewrite(query, fanOut, last);
    Run(if reply.Returned? then Ok(reply.value) else Err(RewriteFailed(reply.message)),
        RetrySchedule(query, fanOut, last + 1))
  }

  /** The rewriting call in its retry loop. */
  method GenerateQueries(query: string, fanOut: nat, svc: Services)
    returns (r: Result<string>, trace: seq<Event>)
    ensures Run(r, trace) == Retry(svc, query, fanOut)
  {
    trace := [];
    var attempt: nat := 0;
    while attempt < MaxRetries
      invariant attempt < MaxRetries
      invariant FinalAttempt(svc, query, fanOut, attempt) == FinalAttempt(svc, query, fanOut, 0)
      invariant trace + [Rewrite(query, fanOut)] == RetrySchedule(query, fanOut, attempt + 1)
    {
      var reply := svc.rewrite(query, fanOut, attempt);
      trace := trace + [Rewrite(query, fanOut)];
      if reply.Returned? {
        r := Ok(reply.value);
        break;
      }
      if IsRateLimit(reply.message) && attempt < MaxRetries - 1 {
        trace := trace + [Sleep(Backoff(attempt))];
      } else {
        r := Err(RewriteFailed(reply.message));
        return;
      }
      attempt := attempt + 1;
    }
  }

  // ---------------------------------------------------------------------------
  // Step 2: from the generated text to the search queries

  /** The stripped form of every line that is not blank, in line order. */
  function SearchQueries(lines: seq<string>): (qs: seq<string>)
    ensures |qs| <= |lines|
  {
    if lines == [] then []
    else
      var q := Strip(lines[|lines| - 1]);
      SearchQueries(lines[..|lines| - 1]) + (if q == [] then [] else [q])
  }

  // ---------------------------------------------------------------------------
  // Step 3: searching once per query and pooling what is found

  /** Index of the first query whose search raises, or `|qs|` if none does. */
  function FirstFailure(qs: seq<string>, k: nat, svc: Services): (j: nat)
    ensures j <= |qs|
    ensures forall i :: 0 <= i < j ==> svc.search(qs[i], k).Returned?
    ensures j < |qs| ==> svc.search(qs[j], k).Raised?
  {
    if qs == [] || svc.search(qs[0], k).Raised? then 0
    else 1 + FirstFailure(qs[1..], k, svc)
  }

  /** The documents found for `qs`, query after query, each search's documents in
      the order it returned them; a search that raises contributes nothing. */
  function Pooled(qs: seq<string>, k: nat, svc: Services): seq<Document> {
    if qs == [] then []
    else
      var reply := svc.search(qs[|qs| - 1], k);
      Pooled(qs[..|qs| - 1], k, svc) + (if reply.Returned? then reply.value else [])
  }

  /** One search and one pause per query, in query order. */
  function SearchSchedule(qs: seq<string>, k: nat): seq<Event> {
    if qs == [] then []
    else SearchSchedule(qs[..|qs| - 1], k) + [Search(qs[|qs| - 1], k), Sleep(SearchPause)]
  }

  /** What searching for the lines of the generated text does: every query is
      searched in turn until one raises; that exception ends the tool, with no
      pause after the failed search. */
  function Gather(lines: seq<string>, k: nat, svc: Services): Run<seq<Document>> {
    var qs := SearchQueries(lines);
    var j := FirstFailure(qs, k, svc);
    if j == |qs| then Run(Ok(Pooled(qs, k, svc)), SearchSchedule(qs, k))
    else Run(Err(SearchFailed(svc.search(qs[j], k).message)),
             SearchSchedule(qs[..j], k) + [Search(qs[j], k)])
  }

  /** `SearchQueries` distributes over concatenation. */
  lemma {:induction false} SearchQueriesAppend(a: seq<string>, b: seq<string>)
    ensures SearchQueries(a + b) == SearchQueries(a) + SearchQueries(b)
    decreases |b|
  {
    if b == [] {
      assert a + b == a;
    } else {
      var b' := b[..|b| - 1];
      assert (a + b)[..|a + b| - 1] == a + b';
      SearchQueriesAppend(a, b');
    }
  }

  /** Taking one more line adds its stripped form, unless it is blank. */
  lemma SearchQueriesStep(lines: seq<string>, i: nat)
    requires i < |lines|
    ensures SearchQueries(lines[..i + 1]) ==
      SearchQueries(lines[..i]) + (if Strip(lines[i]) == [] then [] else [Strip(lines[i])])
  {
    assert lines[..i + 1][..i] == lines[..i];
  }

  /** One more query whose search returns extends the pool and the schedule. */
  lemma GatherStep(qs: seq<string>, q: string, k: nat, svc: Services)
    requires FirstFailure(qs, k, svc) == |qs|
    requires svc.search(q, k).Returned?
    ensures FirstFailure(qs + [q], k, svc) == |qs| + 1
    ensures Pooled(qs + [q], k, svc) == Pooled(qs, k, svc) + svc.search(q, k).value
    ensures SearchSchedule(qs + [q], k) == SearchSchedule(qs, k) + [Search(q, k), Sleep(SearchPause)]
  {
    assert (qs + [q])[..|qs|] == qs;
  }

  /** The first query whose search raises, after a run of queries whose searches
      all return, is where the searching stops. */
  lemma FirstFailureAfter(before: seq<string>, q: string, rest: seq<string>, k: nat, svc: Services)
    requires FirstFailure(before, k, svc) == |before|
    requires svc.search(q, k).Raised?
    ensures FirstFailure(before + [q] + rest, k, svc) == |before|
  {
    var qs := before + [q] + rest;
    assert forall i :: 0 <= i < |before| ==> qs[i] == before[i];
    assert qs[|before|] == q;
  }

  /** The first search that raises, on line `i`, decides what `Gather` does. */
  lemma GatherFails(lines: seq<string>, i: nat, k: nat, svc: Services)
    requires i < |lines| && Strip(lines[i]) != []
    requires FirstFailure(SearchQueries(lines[..i]), k, svc) == |SearchQueries(lines[..i])|
    requires svc.search(Strip(lines[i]), k).Raised?
    ensures Gather(lines, k, svc) ==
      Run(Err(SearchFailed(svc.search(Strip(lines[i]), k).message)),
          SearchSchedule(SearchQueries(lines[..i]), k) + [Search(Strip(lines[i]), k)])
  {
    var before, q, rest := SearchQueries(lines[..i]), Strip(lines[i]), SearchQueries(lines[i + 1..]);
    SearchQueriesStep(lines, i);
    assert lines == lines[..i + 1] + lines[i + 1..];
    SearchQueriesAppend(lines[..i + 1], lines[i + 1..]);
    var qs := SearchQueries(lines);
    assert qs == before + [q] + rest;
    FirstFailureAfter(before, q, rest, k, svc);
    assert qs[|before|] == q;
    assert qs[..|before|] == before;
  }

  /** The loop over the lines of the generated text. */
  method RetrieveAll(lines: seq<string>, k: nat, svc: Services)
    returns (r: Result<seq<Document>>, trace: seq<Event>)
    ensures Run(r, trace) == Gather(lines, k, svc)
  {
    var allDocs: seq<Document> := [];
    trace := [];
    ghost var searched: seq<string> := [];
    for i := 0 to |lines|
      invariant searched == SearchQueries(lines[..i])
      invariant FirstFailure(searched, k, svc) == |searched|
      invariant allDocs == Pooled(searched, k, svc)
      invariant trace == SearchSchedule(searched, k)
    {
      SearchQueriesStep(lines, i);
      var q := Strip(lines[i]);
      if q != [] {
        var reply := svc.search(q, k);
        trace := trace + [Search(q, k)];
        if reply.Raised? {
          GatherFails(lines, i, k, svc);
          return Err(SearchFailed(reply.message)), trace;
        }
        GatherStep(searched, q, k, svc);
        allDocs := allDocs + reply.value;
        trace := trace + [Sleep(SearchPause)];
        searched := searched + [q];
      }
    }
    assert lines[..|lines|] == lines;
    GatherSucceeds(lines, k, svc);
    r := Ok(allDocs);
  }

  /** When no search raises, `Gather` returns the whole pool. */
  lemma GatherSucceeds(lines: seq<string>, k: nat, svc: Services)
    requires FirstFailure(SearchQueries(lines), k, svc) == |SearchQueries(lines)|
    ensures Gather(lines, k, svc) ==
      Run(Ok(Pooled(SearchQueries(lines), k, svc)), SearchSchedule(SearchQueries(lines), k))
  {
  }

  // ---------------------------------------------------------------------------
  // Step 4: reranking, and the output records

  /** The document has the metadata key the output reads. */
  predicate HasSource(d: Document) {
    SourceKey in d.metadata
  }

  /** The output: one `{content, source}` record per document, in order, or the
      `KeyError` of the first document without a source. */
  function Projection(docs: seq<Document>): Result<seq<SearchResult>> {
    if forall i :: 0 <= i < |docs| ==> HasSource(docs[i]) then
      Ok(seq(|docs|, i requires 0 <= i < |docs| && HasSource(docs[i]) =>
               SearchResult(docs[i].pageContent, docs[i].metadata[SourceKey])))
    else Err(MissingKey(SourceKey))
  }

  /** The loop that formats the reranked documents. */
  method FormatResults(docs: seq<Document>) returns (r: Result<seq<SearchResult>>)
    ensures r == Projection(docs)
  {
    var finalResults: seq<SearchResult> := [];
    for i := 0 to |docs|
      invariant forall j :: 0 <= j < i ==> HasSource(docs[j])
      invariant |finalResults| == i
      invariant forall j :: 0 <= j < i ==>
        finalResults[j] == SearchResult(docs[j].pageContent, docs[j].metadata[SourceKey])
    {
      if SourceKey !in docs[i].metadata {
        return Err(MissingKey(SourceKey));
      }
      finalResults := finalResults + [SearchResult(docs[i].pageContent, docs[i].metadata[SourceKey])];
    }
    assert Projection(docs).Ok?;
    assert finalResults == Projection(docs).value;
    r := Ok(finalResults);
  }

  // ---------------------------------------------------------------------------
  // The whole tool

  /** What the tool does for `originalQuery`, and every call and pause it makes. */
  function Pipeline(originalQuery: string, cfg: Config, svc: Services): Run<seq<SearchResult>> {
    var generated := Retry(svc, originalQuery, cfg.fanOut);
    if generated.result.Err? then Run(Err(generated.result.failure), generated.trace)
    else
      var gathered := Gather(Split(generated.result.value, '\n'), cfg.k, svc);
      var searched := generated.trace + gathered.trace;
      if gathered.result.Err? then Run(Err(gathered.result.failure), searched)
      else
        var pool := SimpleRetriever(gathered.result.value).GetRelevantDocuments(originalQuery);
        var trace := searched + [Rerank(originalQuery, pool, cfg.topN)];
        var reranked := svc.rerank(originalQuery, pool, cfg.topN);
        if reranked.Raised? then Run(Err(RerankFailed(reranked.message)), trace)
        else Run(Projection(reranked.value), trace)
  }

  /** `advanced_search(original_query)`. */
  method AdvancedSearch(originalQuery: string, cfg: Config, svc: Services)
    returns (r: Result<seq<SearchResult>>, trace: seq<Event>)
    ensures Run(r, trace) == Pipeline(originalQuery, cfg, svc)
  {
    var generated, rewriteTrace := GenerateQueries(originalQuery, cfg.fanOut, svc);
    trace := rewriteTrace;
    if generated.Err? {
      return Err(generated.failure), trace;
    }
    var queryList := Split(generated.value, '\n');
    var allDocs, searchTrace := RetrieveAll(queryList, cfg.k, svc);
    trace := trace + searchTrace;
    if allDocs.Err? {
      return Err(allDocs.failure), trace;
    }
    var simpleRetriever := SimpleRetriever(allDocs.value);
    var pool := simpleRetriever.GetRelevantDocuments(originalQuery);
    trace := trace + [Rerank(originalQuery, pool, cfg.topN)];
    var reranked := svc.rerank(originalQuery, pool, cfg.topN);
    if reranked.Raised? {
      return Err(RerankFailed(reranked.message)), trace;
    }
    r := FormatResults(reranked.value);
  }
}
