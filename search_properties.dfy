/** What the search tool promises, stated over the traces and results that
    `Tools.Pipeline` describes (and that `Tools.AdvancedSearch` is proved to
    produce). */
module SearchProperties {
  import opened PyStr
  import opened Tools

  // ---------------------------------------------------------------------------
  // Reading a trace

  /** Everything `pick` extracts from the events of `t`, in event order. */
  function Collect<T>(t: seq<Event>, pick: Event -> seq<T>): seq<T> {
    if t == [] then [] else Collect(t[..|t| - 1], pick) + pick(t[|t| - 1])
  }

  function PickWait(e: Event): seq<real> { if e.Sleep? then [e.seconds] else [] }
  function PickSearch(e: Event): seq<string> { if e.Search? then [e.query] else [] }
  function PickRewrite(e: Event): seq<string> { if e.Rewrite? then [e.query] else [] }
  function PickRerank(e: Event): seq<Event> { if e.Rerank? then [e] else [] }

  /** The seconds of every pause, in order. */
  function Waits(t: seq<Event>): seq<real> { Collect(t, PickWait) }
  /** The argument of every web search, in order. */
  function Searches(t: seq<Event>): seq<string> { Collect(t, PickSearch) }
  /** The query of every invocation of the rewriting chain, in order. */
  function Rewrites(t: seq<Event>): seq<string> { Collect(t, PickRewrite) }
  /** Every invocation of the reranking retriever. */
  function Reranks(t: seq<Event>): seq<Event> { Collect(t, PickRerank) }

  /** The sum of some waits. */
  function Total(ws: seq<real>): real {
    if ws == [] then 0.0 else Total(ws[..|ws| - 1]) + ws[|ws| - 1]
  }

  lemma TotalPair(x: real, y: real)
    ensures Total([x]) == x && Total([x, y]) == x + y
  {
    assert [x, y][..1] == [x];
    assert [x][..0] == [];
  }

  lemma CollectPair<T>(e: Event, f: Event, pick: Event -> seq<T>)
    ensures Collect([e], pick) == pick(e)
    ensures Collect([e, f], pick) == pick(e) + pick(f)
  {
    assert [e, f][..1] == [e];
    assert [e][..0] == [];
  }

  lemma {:induction false} CollectAppend<T>(a: seq<Event>, b: seq<Event>, pick: Event -> seq<T>)
    ensures Collect(a + b, pick) == Collect(a, pick) + Collect(b, pick)
    decreases |b|
  {
    if b == [] {
      assert a + b == a;
    } else {
      assert (a + b)[..|a + b| - 1] == a + b[..|b| - 1];
      CollectAppend(a, b[..|b| - 1], pick);
    }
  }

  // ---------------------------------------------------------------------------
  // Classifying an error as a rate limit

  /** The ten characters of `m` from `i` on spell "rate_limit" in some mix of
      upper and lower case. */
  predicate MarkerAt(m: string, i: int) {
    0 <= i <= |m| - |RateLimitMarker| && Lower(m[i..i + |RateLimitMarker|]) == RateLimitMarker
  }

  /** The classification is a case-insensitive substring test: a message is a
      rate limit exactly when "rate_limit", in any case, occurs in it. */
  lemma RateLimitIsCaseInsensitive(m: string)
    ensures IsRateLimit(m) <==> exists i :: MarkerAt(m, i)
  {
    var n := |RateLimitMarker|;
    if IsRateLimit(m) {
      var i :| 0 <= i <= |Lower(m)| - n && OccursAt(Lower(m), RateLimitMarker, i);
      LowerSlice(m, i, i + n);
      assert MarkerAt(m, i);
    }
    if i :| MarkerAt(m, i) {
      LowerSlice(m, i, i + n);
      assert OccursAt(Lower(m), RateLimitMarker, i);
    }
  }

  /** A message without an underscore is never a rate limit: "Rate limit
      reached", spelt with a space, is re-raised at once. */
  lemma NoUnderscoreNoRateLimit(m: string)
    requires '_' !in m
    ensures !IsRateLimit(m)
  {
    forall i | 0 <= i <= |Lower(m)| - |RateLimitMarker| ensures !OccursAt(Lower(m), RateLimitMarker, i) {
      assert m[i + 4] in m;
      assert Lower(m)[i..i + |RateLimitMarker|][4] == Lower(m)[i + 4] != RateLimitMarker[4];
    }
  }

  // ---------------------------------------------------------------------------
  // Step 1: the retry loop

  /** `n` attempts take `n` invocations, and the pauses between them are 2s, 4s,
      ... : `(i + 1) * 2` seconds after the failed attempt `i`. */
  lemma {:induction false} RetryScheduleShape(query: string, fanOut: nat, n: nat)
    requires n > 0
    ensures |Rewrites(RetrySchedule(query, fanOut, n))| == n
    ensures forall i :: 0 <= i < n ==> Rewrites(RetrySchedule(query, fanOut, n))[i] == query
    ensures |Waits(RetrySchedule(query, fanOut, n))| == n - 1
    ensures forall i :: 0 <= i < n - 1 ==> Waits(RetrySchedule(query, fanOut, n))[i] == ((i + 1) * 2) as real
    ensures Searches(RetrySchedule(query, fanOut, n)) == [] && Reranks(RetrySchedule(query, fanOut, n)) == []
  {
    var t := RetrySchedule(query, fanOut, n);
    if n == 1 {
      CollectPair(Rewrite(query, fanOut), Rewrite(query, fanOut), PickWait);
      CollectPair(Rewrite(query, fanOut), Rewrite(query, fanOut), PickRewrite);
      CollectPair(Rewrite(query, fanOut), Rewrite(query, fanOut), PickSearch);
      CollectPair(Rewrite(query, fanOut), Rewrite(query, fanOut), PickRerank);
    } else {
      var prev := RetrySchedule(query, fanOut, n - 1);
      var tail := [Sleep(Backoff(n - 2)), Rewrite(query, fanOut)];
      RetryScheduleShape(query, fanOut, n - 1);
      CollectAppend(prev, tail, PickWait);
      CollectAppend(prev, tail, PickRewrite);
      CollectAppend(prev, tail, PickSearch);
      CollectAppend(prev, tail, PickRerank);
      CollectPair(tail[0], tail[1], PickWait);
      CollectPair(tail[0], tail[1], PickRewrite);
      CollectPair(tail[0], tail[1], PickSearch);
      CollectPair(tail[0], tail[1], PickRerank);
    }
  }

  /** The loop stops at attempt `i` when every earlier attempt failed with a rate
      limit and attempt `i` did not, or is the last allowed. */
  lemma {:induction false} StopsAt(svc: Services, query: string, fanOut: nat, i: nat)
    requires i < MaxRetries
    requires forall j :: 0 <= j < i ==> RateLimited(svc.rewrite(query, fanOut, j))
    requires i == MaxRetries - 1 || !RateLimited(svc.rewrite(query, fanOut, i))
    ensures FinalAttempt(svc, query, fanOut, 0) == i
  {
  }

  /** The rewriting chain is invoked at least once and at most three times, and
      the loop always ends in a value or an exception. */
  lemma RetryIsBounded(svc: Services, query: string, fanOut: nat)
    ensures 1 <= |Rewrites(Retry(svc, query, fanOut).trace)| <= MaxRetries
    ensures |Waits(Retry(svc, query, fanOut).trace)| == |Rewrites(Retry(svc, query, fanOut).trace)| - 1
  {
    RetryScheduleShape(query, fanOut, FinalAttempt(svc, query, fanOut, 0) + 1);
  }

  /** Every pause of the retry loop lasts 2s or 4s, never 6s, and they add up to
      at most 6s. */
  lemma RetryWaitsAreTwoOrFour(svc: Services, query: string, fanOut: nat)
    ensures forall w :: w in Waits(Retry(svc, query, fanOut).trace) ==> w == 2.0 || w == 4.0
    ensures Total(Waits(Retry(svc, query, fanOut).trace)) <= 6.0
  {
    var n := FinalAttempt(svc, query, fanOut, 0) + 1;
    var ws := Waits(Retry(svc, query, fanOut).trace);
    RetryScheduleShape(query, fanOut, n);
    if |ws| == 2 {
      assert ws == [2.0, 4.0];
      TotalPair(2.0, 4.0);
    } else if |ws| == 1 {
      assert ws == [2.0];
      TotalPair(2.0, 4.0);
    }
  }

  /** The loop stops at the first invocation that returns, and that invocation's
      text is what the loop produces. */
  lemma RetryStopsAtFirstSuccess(svc: Services, query: string, fanOut: nat, i: nat)
    requires i < MaxRetries
    requires forall j :: 0 <= j < i ==> RateLimited(svc.rewrite(query, fanOut, j))
    requires svc.rewrite(query, fanOut, i).Returned?
    ensures Retry(svc, query, fanOut).result == Ok(svc.rewrite(query, fanOut, i).value)
    ensures |Rewrites(Retry(svc, query, fanOut).trace)| == i + 1
  {
    StopsAt(svc, query, fanOut, i);
    RetryScheduleShape(query, fanOut, i + 1);
  }

  /** An error that is not a rate limit is re-raised on the attempt where it
      happens: no pause follows it and no further attempt is made. */
  lemma RetryRaisesOtherErrorsAtOnce(svc: Services, query: string, fanOut: nat, i: nat)
    requires i < MaxRetries
    requires forall j :: 0 <= j < i ==> RateLimited(svc.rewrite(query, fanOut, j))
    requires svc.rewrite(query, fanOut, i).Raised? && !IsRateLimit(svc.rewrite(query, fanOut, i).message)
    ensures Retry(svc, query, fanOut).result == Err(RewriteFailed(svc.rewrite(query, fanOut, i).message))
    ensures |Rewrites(Retry(svc, query, fanOut).trace)| == i + 1
    ensures |Waits(Retry(svc, query, fanOut).trace)| == i
    ensures Retry(svc, query, fanOut).trace[|Retry(svc, query, fanOut).trace| - 1] == Rewrite(query, fanOut)
  {
    StopsAt(svc, query, fanOut, i);
    RetryScheduleShape(query, fanOut, i + 1);
  }

  /** The very first error, when it is not a rate limit, ends the loop after one
      invocation and no pause. */
  lemma RetryFirstOtherError(svc: Services, query: string, fanOut: nat)
    requires svc.rewrite(query, fanOut, 0).Raised? && !IsRateLimit(svc.rewrite(query, fanOut, 0).message)
    ensures Retry(svc, query, fanOut) ==
      Run(Err(RewriteFailed(svc.rewrite(query, fanOut, 0).message)), [Rewrite(query, fanOut)])
  {
  }

  /** Two rate limits and then a success: three invocations, pauses of 2s then
      4s, 6s in all, and the third invocation's text. */
  lemma RetryTwoRateLimitsThenSuccess(svc: Services, query: string, fanOut: nat)
    requires RateLimited(svc.rewrite(query, fanOut, 0)) && RateLimited(svc.rewrite(query, fanOut, 1))
    requires svc.rewrite(query, fanOut, 2).Returned?
    ensures Retry(svc, query, fanOut) ==
      Run(Ok(svc.rewrite(query, fanOut, 2).value),
          [Rewrite(query, fanOut), Sleep(2.0), Rewrite(query, fanOut), Sleep(4.0), Rewrite(query, fanOut)])
    ensures Waits(Retry(svc, query, fanOut).trace) == [2.0, 4.0]
    ensures Total(Waits(Retry(svc, query, fanOut).trace)) == 6.0
  {
    StopsAt(svc, query, fanOut, 2);
    var ws := Waits(Retry(svc, query, fanOut).trace);
    RetryScheduleShape(query, fanOut, 3);
    assert RetrySchedule(query, fanOut, 2) == [Rewrite(query, fanOut), Sleep(2.0), Rewrite(query, fanOut)];
    assert ws == [2.0, 4.0];
    TotalPair(2.0, 4.0);
  }

  /** A third rate limit is not waited for: it is re-raised after pauses of 2s
      and 4s. */
  lemma RetryGivesUpOnThirdRateLimit(svc: Services, query: string, fanOut: nat)
    requires RateLimited(svc.rewrite(query, fanOut, 0)) && RateLimited(svc.rewrite(query, fanOut, 1))
    requires RateLimited(svc.rewrite(query, fanOut, 2))
    ensures Retry(svc, query, fanOut).result == Err(RewriteFailed(svc.rewrite(query, fanOut, 2).message))
    ensures Waits(Retry(svc, query, fanOut).trace) == [2.0, 4.0]
  {
    StopsAt(svc, query, fanOut, 2);
    RetryScheduleShape(query, fanOut, 3);
  }

  // ---------------------------------------------------------------------------
  // Step 2: the search queries

  /** Every search query is non-empty and has no whitespace at either end. */
  lemma {:induction false} SearchQueriesAreStripped(lines: seq<string>)
    ensures forall i :: 0 <= i < |SearchQueries(lines)| ==>
      SearchQueries(lines)[i] != [] && Strip(SearchQueries(lines)[i]) == SearchQueries(lines)[i] &&
      !IsSpace(SearchQueries(lines)[i][0]) &&
      !IsSpace(SearchQueries(lines)[i][|SearchQueries(lines)[i]| - 1])
    decreases |lines|
  {
    if lines != [] {
      var l := lines[|lines| - 1];
      SearchQueriesAreStripped(lines[..|lines| - 1]);
      StripSpec(l);
      StripStripped(l);
    }
  }

  /** Blank or whitespace-only lines give no query; only when every line is
      blank is there no query at all. */
  lemma {:induction false} NoQueryIffAllBlank(lines: seq<string>)
    ensures SearchQueries(lines) == [] <==> forall j :: 0 <= j < |lines| ==> AllSpace(lines[j])
    decreases |lines|
  {
    if lines != [] {
      var init := lines[..|lines| - 1];
      NoQueryIffAllBlank(init);
      StripSpec(lines[|lines| - 1]);
      if forall j :: 0 <= j < |lines| ==> AllSpace(lines[j]) {
        assert forall j :: 0 <= j < |init| ==> AllSpace(init[j]) by {
          forall j | 0 <= j < |init| ensures AllSpace(init[j]) { assert init[j] == lines[j]; }
        }
      }
      if SearchQueries(lines) == [] {
        forall j | 0 <= j < |lines| ensures AllSpace(lines[j]) {
          if j < |init| { assert init[j] == lines[j]; }
        }
      }
    }
  }

  /** When no line is blank there is one query per line, in line order, the
      stripped line. */
  lemma {:induction false} OneQueryPerLine(lines: seq<string>)
    requires forall j :: 0 <= j < |lines| ==> !AllSpace(lines[j])
    ensures |SearchQueries(lines)| == |lines|
    ensures forall j :: 0 <= j < |lines| ==> SearchQueries(lines)[j] == Strip(lines[j])
    decreases |lines|
  {
    if lines != [] {
      var init := lines[..|lines| - 1];
      forall j | 0 <= j < |init| ensures !AllSpace(init[j]) { assert init[j] == lines[j]; }
      OneQueryPerLine(init);
      StripSpec(lines[|lines| - 1]);
    }
  }

  // ---------------------------------------------------------------------------
  // Step 3: searching and pooling

  /** The pool of a list of queries is the pools of its parts, one after the
      other. */
  lemma {:induction false} PooledAppend(a: seq<string>, b: seq<string>, k: nat, svc: Services)
    ensures Pooled(a + b, k, svc) == Pooled(a, k, svc) + Pooled(b, k, svc)
    decreases |b|
  {
    if b == [] {
      assert a + b == a;
    } else {
      assert (a + b)[..|a + b| - 1] == a + b[..|b| - 1];
      PooledAppend(a, b[..|b| - 1], k, svc);
    }
  }

  /** Nothing is removed from the pool: two searches that find the same document
      put it in the pool twice. */
  lemma PoolKeepsDuplicates(q1: string, q2: string, d: Document, k: nat, svc: Services)
    requires svc.search(q1, k) == Returned([d]) && svc.search(q2, k) == Returned([d])
    ensures Pooled([q1, q2], k, svc) == [d, d]
  {
    assert [q1, q2][..1] == [q1];
    assert [q1][..0] == [];
    assert Pooled([q1], k, svc) == Pooled([], k, svc) + [d] == [d];
    assert Pooled([q1, q2], k, svc) == Pooled([q1], k, svc) + [d];
  }

  /** Each query is searched once, with the query as argument, and followed by a
      pause of half a second; nothing else happens in between. */
  lemma {:induction false} SearchScheduleShape(qs: seq<string>, k: nat)
    ensures |SearchSchedule(qs, k)| == 2 * |qs|
    ensures forall i :: 0 <= i < |qs| ==>
      SearchSchedule(qs, k)[2 * i] == Search(qs[i], k) && SearchSchedule(qs, k)[2 * i + 1] == Sleep(SearchPause)
    decreases |qs|
  {
    if qs != [] {
      var init := qs[..|qs| - 1];
      SearchScheduleShape(init, k);
      forall i | 0 <= i < |init| ensures init[i] == qs[i] { }
    }
  }

  /** Read as a trace, the searches are exactly the queries, the pauses are one
      half-second per query, and there is neither rewriting nor reranking. */
  lemma {:induction false} SearchScheduleEvents(qs: seq<string>, k: nat)
    ensures Searches(SearchSchedule(qs, k)) == qs
    ensures |Waits(SearchSchedule(qs, k))| == |qs|
    ensures forall i :: 0 <= i < |qs| ==> Waits(SearchSchedule(qs, k))[i] == SearchPause
    ensures Rewrites(SearchSchedule(qs, k)) == [] && Reranks(SearchSchedule(qs, k)) == []
    decreases |qs|
  {
    if qs != [] {
      var init := qs[..|qs| - 1];
      var tail := [Search(qs[|qs| - 1], k), Sleep(SearchPause)];
      SearchScheduleEvents(init, k);
      CollectAppend(SearchSchedule(init, k), tail, PickWait);
      CollectAppend(SearchSchedule(init, k), tail, PickSearch);
      CollectAppend(SearchSchedule(init, k), tail, PickRewrite);
      CollectAppend(SearchSchedule(init, k), tail, PickRerank);
      CollectPair(tail[0], tail[1], PickWait);
      CollectPair(tail[0], tail[1], PickSearch);
      CollectPair(tail[0], tail[1], PickRewrite);
      CollectPair(tail[0], tail[1], PickRerank);
      assert init + [qs[|qs| - 1]] == qs;
    }
  }

  /** When every search returns, the pool is every document found, query after
      query, and the searches are exactly the queries, each followed by a 0.5s
      pause. */
  lemma GatherWhenAllSearchesReturn(lines: seq<string>, k: nat, svc: Services)
    requires forall i :: 0 <= i < |SearchQueries(lines)| ==> svc.search(SearchQueries(lines)[i], k).Returned?
    ensures Gather(lines, k, svc).result == Ok(Pooled(SearchQueries(lines), k, svc))
    ensures Gather(lines, k, svc).trace == SearchSchedule(SearchQueries(lines), k)
    ensures Searches(Gather(lines, k, svc).trace) == SearchQueries(lines)
    ensures |Waits(Gather(lines, k, svc).trace)| == |SearchQueries(lines)|
    ensures forall i :: 0 <= i < |SearchQueries(lines)| ==> Waits(Gather(lines, k, svc).trace)[i] == SearchPause
  {
    SearchScheduleEvents(SearchQueries(lines), k);
  }

  /** The first search that raises ends the tool with its exception: the
      queries before it and it were searched, and nothing after. */
  lemma GatherStopsAtFirstFailure(lines: seq<string>, k: nat, svc: Services)
    requires FirstFailure(SearchQueries(lines), k, svc) < |SearchQueries(lines)|
    ensures var qs := SearchQueries(lines); var j := FirstFailure(qs, k, svc);
      Gather(lines, k, svc).result == Err(SearchFailed(svc.search(qs[j], k).message)) &&
      Searches(Gather(lines, k, svc).trace) == qs[..j + 1] &&
      |Waits(Gather(lines, k, svc).trace)| == j
  {
    var qs := SearchQueries(lines);
    var j := FirstFailure(qs, k, svc);
    var tail := [Search(qs[j], k)];
    SearchScheduleEvents(qs[..j], k);
    CollectAppend(SearchSchedule(qs[..j], k), tail, PickSearch);
    CollectAppend(SearchSchedule(qs[..j], k), tail, PickWait);
    assert Searches(tail) == [qs[j]] by { assert tail[..0] == []; }
    assert Waits(tail) == [] by { assert tail[..0] == []; }
    assert qs[..j] + [qs[j]] == qs[..j + 1];
  }

  // ---------------------------------------------------------------------------
  // Step 4: the output records

  /** The output keeps one record per document, in order, with the page content
      and the metadata's "source" and nothing else. */
  lemma ProjectionIsPointwise(docs: seq<Document>)
    requires forall i :: 0 <= i < |docs| ==> HasSource(docs[i])
    ensures Projection(docs).Ok? && |Projection(docs).value| == |docs|
    ensures forall i :: 0 <= i < |docs| ==>
      Projection(docs).value[i].content == docs[i].pageContent &&
      Projection(docs).value[i].source == docs[i].metadata[SourceKey]
  {
  }

  /** All metadata but the source is dropped: documents that agree on content
      and source give the same output. */
  lemma ProjectionIgnoresOtherMetadata(docs: seq<Document>, others: seq<Document>)
    requires |docs| == |others|
    requires forall i :: 0 <= i < |docs| ==>
      docs[i].pageContent == others[i].pageContent &&
      (HasSource(docs[i]) <==> HasSource(others[i])) &&
      (HasSource(docs[i]) ==> docs[i].metadata[SourceKey] == others[i].metadata[SourceKey])
    ensures Projection(docs) == Projection(others)
  {
    if forall i :: 0 <= i < |docs| ==> HasSource(docs[i]) {
      assert Projection(docs).value == Projection(others).value;
    }
  }

  /** A document without a source makes the whole output a `KeyError`. */
  lemma ProjectionNeedsEverySource(docs: seq<Document>, i: nat)
    requires i < |docs| && !HasSource(docs[i])
    ensures Projection(docs) == Err(MissingKey(SourceKey))
  {
  }

  // ---------------------------------------------------------------------------
  // The whole tool

  /** The queries the generated text yields. */
  function QueriesOf(text: string): seq<string> {
    SearchQueries(Split(text, '\n'))
  }

  /** The retry loop neither searches nor reranks. */
  lemma RetryTraceIsQuiet(svc: Services, query: string, fanOut: nat)
    ensures Searches(Retry(svc, query, fanOut).trace) == []
    ensures Reranks(Retry(svc, query, fanOut).trace) == []
  {
    RetryScheduleShape(query, fanOut, FinalAttempt(svc, query, fanOut, 0) + 1);
  }

  /** Searching never reranks, whether or not a search raises. */
  lemma GatherTraceHasNoRerank(lines: seq<string>, k: nat, svc: Services)
    ensures Reranks(Gather(lines, k, svc).trace) == []
  {
    var qs := SearchQueries(lines);
    var j := FirstFailure(qs, k, svc);
    SearchScheduleEvents(qs, k);
    if j < |qs| {
      var tail := [Search(qs[j], k)];
      SearchScheduleEvents(qs[..j], k);
      CollectAppend(SearchSchedule(qs[..j], k), tail, PickRerank);
      CollectPair(tail[0], tail[0], PickRerank);
    }
  }

  /** Two traces without a reranking followed by one reranking event. */
  lemma QuietThenRerank(a: seq<Event>, b: seq<Event>, e: Event)
    requires Reranks(a) == [] && Reranks(b) == [] && e.Rerank?
    ensures Reranks(a + b) == []
    ensures Reranks(a + b + [e]) == [e]
    ensures Searches(a + b + [e]) == Searches(a) + Searches(b)
  {
    CollectAppend(a, b, PickRerank);
    CollectAppend(a + b, [e], PickRerank);
    CollectAppend(a, b, PickSearch);
    CollectAppend(a + b, [e], PickSearch);
    CollectPair(e, e, PickRerank);
    CollectPair(e, e, PickSearch);
  }

  /** Once the rewriting and every search succeed, the reranking retriever is
      invoked once, last, with the original query and the whole pool, and the
      output is the projection of what it returns. */
  lemma RerankSeesOriginalQueryAndWholePool(originalQuery: string, cfg: Config, svc: Services)
    requires Retry(svc, originalQuery, cfg.fanOut).result.Ok?
    requires var qs := QueriesOf(Retry(svc, originalQuery, cfg.fanOut).result.value);
      forall i :: 0 <= i < |qs| ==> svc.search(qs[i], cfg.k).Returned?
    ensures var generated := Retry(svc, originalQuery, cfg.fanOut);
      var qs := QueriesOf(generated.result.value);
      var pool := Pooled(qs, cfg.k, svc);
      var run := Pipeline(originalQuery, cfg, svc);
      run.trace == generated.trace + SearchSchedule(qs, cfg.k) + [Rerank(originalQuery, pool, cfg.topN)] &&
      Reranks(run.trace) == [Rerank(originalQuery, pool, cfg.topN)] &&
      Searches(run.trace) == qs &&
      run.result == (match svc.rerank(originalQuery, pool, cfg.topN)
                     case Raised(m) => Err(RerankFailed(m))
                     case Returned(docs) => Projection(docs))
  {
    var generated := Retry(svc, originalQuery, cfg.fanOut);
    var lines := Split(generated.result.value, '\n');
    var qs := SearchQueries(lines);
    var pool := Pooled(qs, cfg.k, svc);
    assert qs == QueriesOf(generated.result.value);
    GatherWhenAllSearchesReturn(lines, cfg.k, svc);
    RetryTraceIsQuiet(svc, originalQuery, cfg.fanOut);
    SearchScheduleEvents(qs, cfg.k);
    QuietThenRerank(generated.trace, SearchSchedule(qs, cfg.k), Rerank(originalQuery, pool, cfg.topN));
  }

  /** Reranking is never done against a rewritten query: every invocation of
      the reranking retriever is with the original query, and there is at most
      one. */
  lemma RerankOnlyWithOriginalQuery(originalQuery: string, cfg: Config, svc: Services)
    ensures |Reranks(Pipeline(originalQuery, cfg, svc).trace)| <= 1
    ensures forall e :: e in Reranks(Pipeline(originalQuery, cfg, svc).trace) ==>
      e.Rerank? && e.query == originalQuery
  {
    var generated := Retry(svc, originalQuery, cfg.fanOut);
    RetryTraceIsQuiet(svc, originalQuery, cfg.fanOut);
    if generated.result.Ok? {
      var lines := Split(generated.result.value, '\n');
      var gathered := Gather(lines, cfg.k, svc);
      GatherTraceHasNoRerank(lines, cfg.k, svc);
      var e := Rerank(originalQuery, if gathered.result.Ok? then gathered.result.value else [], cfg.topN);
      QuietThenRerank(generated.trace, gathered.trace, e);
    }
  }

  /** There is no guard against an empty pool: when the generated text has no
      non-blank line, nothing is searched and the reranking retriever is still
      invoked, on an empty pool. */
  lemma EmptyPoolIsStillReranked(originalQuery: string, cfg: Config, svc: Services)
    requires Retry(svc, originalQuery, cfg.fanOut).result.Ok?
    requires forall j :: 0 <= j < |Split(Retry(svc, originalQuery, cfg.fanOut).result.value, '\n')| ==>
      AllSpace(Split(Retry(svc, originalQuery, cfg.fanOut).result.value, '\n')[j])
    ensures Pipeline(originalQuery, cfg, svc).trace ==
      Retry(svc, originalQuery, cfg.fanOut).trace + [Rerank(originalQuery, [], cfg.topN)]
  {
    var lines := Split(Retry(svc, originalQuery, cfg.fanOut).result.value, '\n');
    assert forall j :: 0 <= j < |lines| ==> AllSpace(lines[j]);
    NoQueryIffAllBlank(lines);
    var qs := SearchQueries(lines);
    assert qs == [];
    assert FirstFailure(qs, cfg.k, svc) == 0;
    assert Pooled(qs, cfg.k, svc) == [];
    assert SearchSchedule(qs, cfg.k) == [];
    assert Gather(lines, cfg.k, svc) == Run(Ok([]), []);
  }

  /** A search that raises ends the tool with that exception, and the reranking
      retriever is never invoked. */
  lemma SearchFailureIsNotCaught(originalQuery: string, cfg: Config, svc: Services)
    requires Retry(svc, originalQuery, cfg.fanOut).result.Ok?
    requires var qs := QueriesOf(Retry(svc, originalQuery, cfg.fanOut).result.value);
      FirstFailure(qs, cfg.k, svc) < |qs|
    ensures var qs := QueriesOf(Retry(svc, originalQuery, cfg.fanOut).result.value);
      Pipeline(originalQuery, cfg, svc).result ==
        Err(SearchFailed(svc.search(qs[FirstFailure(qs, cfg.k, svc)], cfg.k).message))
    ensures Reranks(Pipeline(originalQuery, cfg, svc).trace) == []
  {
    var generated := Retry(svc, originalQuery, cfg.fanOut);
    var lines := Split(generated.result.value, '\n');
    var gathered := Gather(lines, cfg.k, svc);
    RetryTraceIsQuiet(svc, originalQuery, cfg.fanOut);
    GatherTraceHasNoRerank(lines, cfg.k, svc);
    QuietThenRerank(generated.trace, gathered.trace, Rerank(originalQuery, [], cfg.topN));
  }

  /** A rewriting failure ends the tool before any search or reranking. */
  lemma RewriteFailureStopsEverything(originalQuery: string, cfg: Config, svc: Services)
    requires Retry(svc, originalQuery, cfg.fanOut).result.Err?
    ensures Pipeline(originalQuery, cfg, svc).result == Err(Retry(svc, originalQuery, cfg.fanOut).result.failure)
    ensures Searches(Pipeline(originalQuery, cfg, svc).trace) == []
    ensures Reranks(Pipeline(originalQuery, cfg, svc).trace) == []
  {
    RetryTraceIsQuiet(svc, originalQuery, cfg.fanOut);
  }

  /** Nothing in the tool limits the output to `top_n` records: it has as many as
      the reranking retriever returns. If that retriever keeps at most `topN`
      documents, so does the output. */
  lemma OutputAsLongAsReranked(originalQuery: string, cfg: Config, svc: Services)
    requires forall q, pool :: svc.rerank(q, pool, cfg.topN).Returned? ==>
      |svc.rerank(q, pool, cfg.topN).value| <= cfg.topN
    ensures Pipeline(originalQuery, cfg, svc).result.Ok? ==>
      exists pool :: svc.rerank(originalQuery, pool, cfg.topN).Returned? &&
        |Pipeline(originalQuery, cfg, svc).result.value| == |svc.rerank(originalQuery, pool, cfg.topN).value|
    ensures Pipeline(originalQuery, cfg, svc).result.Ok? ==>
      |Pipeline(originalQuery, cfg, svc).result.value| <= cfg.topN
  {
    if Pipeline(originalQuery, cfg, svc).result.Ok? {
      var generated := Retry(svc, originalQuery, cfg.fanOut);
      var pool := Gather(Split(generated.result.value, '\n'), cfg.k, svc).result.value;
      assert svc.rerank(originalQuery, pool, cfg.topN).Returned?;
    }
  }

  /** The settings an event was made with agree with `cfg`. */
  predicate UsesConfig(e: Event, cfg: Config) {
    match e
    case Rewrite(_, fanOut) => fanOut == cfg.fanOut
    case Search(_, k) => k == cfg.k
    case Rerank(_, _, topN) => topN == cfg.topN
    case Sleep(_) => true
  }

  /** Every event of the retry loop is an invocation with the query and the
      fan-out, or a pause. */
  lemma {:induction false} RetryScheduleEvents(query: string, fanOut: nat, n: nat)
    requires n > 0
    ensures forall i :: 0 <= i < |RetrySchedule(query, fanOut, n)| ==>
      RetrySchedule(query, fanOut, n)[i] == Rewrite(query, fanOut) || RetrySchedule(query, fanOut, n)[i].Sleep?
  {
    if n > 1 {
      RetryScheduleEvents(query, fanOut, n - 1);
    }
  }

  /** Every event of the search loop is a search with `k` or a half-second
      pause. */
  lemma {:induction false} SearchScheduleSettings(qs: seq<string>, k: nat)
    ensures forall i :: 0 <= i < |SearchSchedule(qs, k)| ==>
      SearchSchedule(qs, k)[i] == Sleep(SearchPause) ||
      (SearchSchedule(qs, k)[i].Search? && SearchSchedule(qs, k)[i].k == k)
    decreases |qs|
  {
    if qs != [] {
      SearchScheduleSettings(qs[..|qs| - 1], k);
    }
  }

  /** Every call the tool makes uses the settings it was given: the fan-out for
      the rewriting, `k` for each search, `top_n` for the reranking. */
  lemma PipelineUsesConfig(originalQuery: string, cfg: Config, svc: Services)
    ensures forall i :: 0 <= i < |Pipeline(originalQuery, cfg, svc).trace| ==>
      UsesConfig(Pipeline(originalQuery, cfg, svc).trace[i], cfg)
  {
    var generated := Retry(svc, originalQuery, cfg.fanOut);
    RetryScheduleEvents(originalQuery, cfg.fanOut, FinalAttempt(svc, originalQuery, cfg.fanOut, 0) + 1);
    assert forall i :: 0 <= i < |generated.trace| ==> UsesConfig(generated.trace[i], cfg);
    if generated.result.Ok? {
      var lines := Split(generated.result.value, '\n');
      var qs := SearchQueries(lines);
      var j := FirstFailure(qs, cfg.k, svc);
      var gathered := Gather(lines, cfg.k, svc);
      if j == |qs| {
        SearchScheduleSettings(qs, cfg.k);
      } else {
        SearchScheduleSettings(qs[..j], cfg.k);
      }
      assert forall i :: 0 <= i < |gathered.trace| ==> UsesConfig(gathered.trace[i], cfg);
    }
  }

  /** The tool as shipped asks for 2 rewritten queries, 1 document per search
      and the top 1 document from the reranker. */
  lemma ToolSettings(originalQuery: string, svc: Services)
    ensures forall e :: e in Pipeline(originalQuery, ToolConfig, svc).trace ==>
      (e.Rewrite? ==> e.fanOut == 2) && (e.Search? ==> e.k == 1) && (e.Rerank? ==> e.topN == 1)
  {
    PipelineUsesConfig(originalQuery, ToolConfig, svc);
  }

  /** A whole run: the rewriting returns two lines, each search finds one
      document, the reranker keeps the pool as it is. The output is both
      documents' records in order, after one invocation, two searches each with
      its pause, and one reranking with the original query. */
  lemma TwoLineRun(originalQuery: string, cfg: Config, svc: Services, a: string, b: string, da: Document, db: Document)
    requires a != [] && b != [] && '\n' !in a && '\n' !in b
    requires !IsSpace(a[0]) && !IsSpace(a[|a| - 1]) && !IsSpace(b[0]) && !IsSpace(b[|b| - 1])
    requires svc.rewrite(originalQuery, cfg.fanOut, 0) == Returned(a + "\n" + b)
    requires svc.search(a, cfg.k) == Returned([da]) && svc.search(b, cfg.k) == Returned([db])
    requires svc.rerank(originalQuery, [da, db], cfg.topN) == Returned([da, db])
    requires HasSource(da) && HasSource(db)
    ensures Pipeline(originalQuery, cfg, svc) ==
      Run(Ok([SearchResult(da.pageContent, da.metadata[SourceKey]),
              SearchResult(db.pageContent, db.metadata[SourceKey])]),
          [Rewrite(originalQuery, cfg.fanOut), Search(a, cfg.k), Sleep(SearchPause),
           Search(b, cfg.k), Sleep(SearchPause), Rerank(originalQuery, [da, db], cfg.topN)])
  {
    var text := a + "\n" + b;
    assert Join([a, b], '\n') == text;
    SplitJoin([a, b], '\n');
    StripUnchanged(a);
    StripUnchanged(b);
    assert [a, b][..1] == [a];
    assert SearchQueries([a, b]) == [a, b];
    assert FirstFailure([a, b], cfg.k, svc) == 2;
    assert [a][..0] == [];
    assert Pooled([a], cfg.k, svc) == [da];
    assert Pooled([a, b], cfg.k, svc) == [da, db];
    assert SearchSchedule([a], cfg.k) == [Search(a, cfg.k), Sleep(SearchPause)];
    assert SearchSchedule([a, b], cfg.k) == SearchSchedule([a], cfg.k) + [Search(b, cfg.k), Sleep(SearchPause)];
    var out := Projection([da, db]).value;
    assert out == [SearchResult(da.pageContent, da.metadata[SourceKey]),
                   SearchResult(db.pageContent, db.metadata[SourceKey])];
  }

  /** The same document found by both queries is reranked twice over: the pool
      the reranker sees holds it twice. */
  lemma DuplicatesReachTheReranker(originalQuery: string, cfg: Config, svc: Services, a: string, b: string, d: Document)
    requires a != [] && b != [] && '\n' !in a && '\n' !in b
    requires !IsSpace(a[0]) && !IsSpace(a[|a| - 1]) && !IsSpace(b[0]) && !IsSpace(b[|b| - 1])
    requires svc.rewrite(originalQuery, cfg.fanOut, 0) == Returned(a + "\n" + b)
    requires svc.search(a, cfg.k) == Returned([d]) && svc.search(b, cfg.k) == Returned([d])
    ensures Reranks(Pipeline(originalQuery, cfg, svc).trace) == [Rerank(originalQuery, [d, d], cfg.topN)]
  {
    var text := a + "\n" + b;
    assert Join([a, b], '\n') == text;
    SplitJoin([a, b], '\n');
    StripUnchanged(a);
    StripUnchanged(b);
    assert [a, b][..1] == [a];
    assert SearchQueries([a, b]) == [a, b];
    PoolKeepsDuplicates(a, b, d, cfg.k, svc);
    RerankSeesOriginalQueryAndWholePool(originalQuery, cfg, svc);
  }
}
