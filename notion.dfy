/**
 * The Notion gateway: the request attempt loop with its `Retry-After`
 * handling, cursor pagination of searches and queries, the batched
 * duplicate check, and the payloads for creating pages and properties.
 * The HTTP exchange itself is a parameter: the `k`-th request's outcome,
 * or the sequence of replies a paginated call receives.
 */
module Notion {
  import opened Text
  import opened Json
  import opened Reliability
  import opened Blocks
  import opened Models

  /** `NOTION_RETRY_CONFIG`: three attempts, delays 1 s, 2 s, ... capped at 60 s. */
  const NotionRetryConfig: RetryConfig :=
    RetryConfig(3, 1.0, 60.0, 2.0, {429, 500, 502, 503, 504}, {ConnectionClass, TimeoutClass, ChunkedClass})

  const RequestLoopExit := "Unexpected request loop exit"

  // `_request`
  // ---------------------------------------------------------------------

  /** The `Retry-After` header of a 429 response, when it is present and non-empty. */
  function RetryAfter(e: Error): (r: Option<string>)
    ensures r.Some? ==> e.HttpError? && e.status == Some(429) && r.value != ""
  {
    if e.HttpError? && e.status == Some(429) && e.retryAfter.Some? && e.retryAfter.value != ""
    then e.retryAfter
    else None
  }

  /** What one failed or successful attempt leads to: the call's final
      outcome, or another attempt after sleeping `delay` seconds. */
  datatype Attempt = Finish(result: Outcome<Json>) | Again(error: Error, delay: real)

  /** The handling of attempt `attempt`'s outcome, `seconds` being `float`
      on header text (None where it raises). */
  function AttemptStep(config: RetryConfig, seconds: string -> Option<real>, attempt: int, o: Outcome<Json>): (a: Attempt)
    requires attempt >= 1
    ensures a.Again? ==> o.Raised? && a.error == o.error
    ensures o.Raised? && RetryAfter(o.error).None? ==>
      (a.Again? <==> IsRetriableError(o.error, config) && attempt < config.maxAttempts)
    ensures o.Ok? ==> a == Finish(o)
  {
    match o
    case Ok(_) => Finish(o)
    case Raised(e) =>
      match RetryAfter(e)
      case Some(header) =>
        var d := seconds(header);
        if d.None? || d.value < 0.0 then Finish(Raised(ValueError))
        else Again(e, d.value)
      case None =>
        if !IsRetriableError(e, config) || attempt >= config.maxAttempts then Finish(o)
        else Again(e, CalculateBackoff(attempt, config))
  }

  /** The attempts of one request from `attempt` on, when the `k`-th attempt
      yields `send(k)`; `last` is the error of the previous attempt. */
  function RequestFrom(config: RetryConfig, send: int -> Outcome<Json>, seconds: string -> Option<real>,
                       attempt: int, last: Option<Error>): (Outcome<Json>, seq<RetryEvent>)
    requires attempt >= 1
    decreases config.maxAttempts - attempt
  {
    if attempt > config.maxAttempts then
      (Raised(if last.Some? then last.value else OtherError(RequestLoopExit)), [])
    else
      match AttemptStep(config, seconds, attempt, send(attempt))
      case Finish(r) => (r, [Call(attempt)])
      case Again(e, d) =>
        var rest := RequestFrom(config, send, seconds, attempt + 1, Some(e));
        (rest.0, [Call(attempt), Sleep(d)] + rest.1)
  }

  /** `_request`: the attempt loop run for one API call. */
  method Request(config: RetryConfig, send: int -> Outcome<Json>, seconds: string -> Option<real>)
    returns (r: Outcome<Json>, events: seq<RetryEvent>)
    ensures (r, events) == RequestFrom(config, send, seconds, 1, None)
  {
    events := [];
    var last: Option<Error> := None;
    var attempt := 1;
    while attempt <= config.maxAttempts
      invariant 1 <= attempt
      invariant RequestFrom(config, send, seconds, 1, None).1 == events + RequestFrom(config, send, seconds, attempt, last).1
      invariant RequestFrom(config, send, seconds, 1, None).0 == RequestFrom(config, send, seconds, attempt, last).0
      decreases config.maxAttempts - attempt
    {
      var outcome := send(attempt);
      events := events + [Call(attempt)];
      var step := AttemptStep(config, seconds, attempt, outcome);
      if step.Finish? {
        r := step.result;
        return;
      }
      ghost var rest := RequestFrom(config, send, seconds, attempt + 1, Some(step.error));
      assert RequestFrom(config, send, seconds, attempt, last).1 == [Call(attempt), Sleep(step.delay)] + rest.1;
      events := events + [Sleep(step.delay)];
      last := Some(step.error);
      attempt := attempt + 1;
    }
    assert events + [] == events;
    r := Raised(if last.Some? then last.value else OtherError(RequestLoopExit));
  }

  lemma CallCountPair(attempt: int, delay: real, rest: seq<RetryEvent>)
    ensures CallCount([Call(attempt), Sleep(delay)] + rest) == 1 + CallCount(rest)
  {
    var pre := [Call(attempt), Sleep(delay)];
    CallCountAppend(pre, rest);
    assert pre[1..] == [Sleep(delay)] && [Sleep(delay)][1..] == [];
  }

  /** At most `max_attempts` requests are sent, counting from `attempt`; a
      429 answered with `Retry-After` counts as one of them. */
  lemma {:induction false} RequestCallsBounded(config: RetryConfig, send: int -> Outcome<Json>, seconds: string -> Option<real>,
                                              attempt: int, last: Option<Error>)
    requires attempt >= 1
    ensures CallCount(RequestFrom(config, send, seconds, attempt, last).1)
      <= if config.maxAttempts >= attempt then config.maxAttempts - attempt + 1 else 0
    decreases config.maxAttempts - attempt
  {
    if attempt <= config.maxAttempts {
      var run := RequestFrom(config, send, seconds, attempt, last);
      match AttemptStep(config, seconds, attempt, send(attempt))
      case Finish(_) =>
        assert run.1 == [Call(attempt)];
        assert CallCount([Call(attempt)]) == 1 by { assert [Call(attempt)][1..] == []; }
      case Again(e, d) =>
        RequestCallsBounded(config, send, seconds, attempt + 1, Some(e));
        CallCountPair(attempt, d, RequestFrom(config, send, seconds, attempt + 1, Some(e)).1);
    }
  }

  /** The Notion client sends each request at most three times. */
  lemma NotionAtMostThree(send: int -> Outcome<Json>, seconds: string -> Option<real>)
    ensures CallCount(RequestFrom(NotionRetryConfig, send, seconds, 1, None).1) <= 3
  {
    RequestCallsBounded(NotionRetryConfig, send, seconds, 1, None);
  }

  /** An error that is neither retriable nor a 429 with `Retry-After` is
      raised after the first request. */
  lemma NonRetriableRaisedAtOnce(config: RetryConfig, send: int -> Outcome<Json>, seconds: string -> Option<real>)
    requires config.maxAttempts >= 1
    requires send(1).Raised? && RetryAfter(send(1).error).None? && !IsRetriableError(send(1).error, config)
    ensures RequestFrom(config, send, seconds, 1, None) == (Raised(send(1).error), [Call(1)])
  {
  }

  /** When every attempt is answered by 429 with a usable `Retry-After`, the
      loop sleeps for the header each time, stops after the attempts from
      `attempt` on are used up, and raises the last 429. */
  lemma {:induction false} RateLimitedThroughout(config: RetryConfig, send: int -> Outcome<Json>, seconds: string -> Option<real>,
                                                attempt: int, last: Option<Error>)
    requires 1 <= attempt <= config.maxAttempts
    requires forall k :: attempt <= k <= config.maxAttempts ==>
      send(k).Raised? && RetryAfter(send(k).error).Some?
      && seconds(RetryAfter(send(k).error).value).Some? && seconds(RetryAfter(send(k).error).value).value >= 0.0
    ensures RequestFrom(config, send, seconds, attempt, last).0 == Raised(send(config.maxAttempts).error)
    ensures CallCount(RequestFrom(config, send, seconds, attempt, last).1) == config.maxAttempts - attempt + 1
    decreases config.maxAttempts - attempt
  {
    var e := send(attempt).error;
    var d := seconds(RetryAfter(e).value).value;
    var rest := RequestFrom(config, send, seconds, attempt + 1, Some(e));
    CallCountPair(attempt, d, rest.1);
    if attempt < config.maxAttempts {
      RateLimitedThroughout(config, send, seconds, attempt + 1, Some(e));
    } else {
      assert rest == (Raised(e), []);
    }
  }

  // Pagination: `search_databases` and `query_database`
  // ---------------------------------------------------------------------

  /** How a paginated call ends: every page collected, an exception, or the
      replies given ran out while the server still reported more pages. */
  datatype PageResult = Done(results: seq<Json>) | Failed(error: Error) | Unfinished

  /** The outcome and the request bodies sent, in order. */
  datatype PageRun = PageRun(result: PageResult, payloads: seq<Json>)

  /** One reply read as (its `results`, its `has_more` truthiness, its
      `next_cursor`); the exception where `.get` or `extend` raises. */
  function ReadPage(data: Json): (r: Outcome<(seq<Json>, bool, Json)>)
    ensures r.Ok? <==> data.JObj? && Items(GetOr(data, "results", JArr([]))).Some?
  {
    if !data.JObj? then Raised(AttributeError)
    else
      match Items(GetOr(data, "results", JArr([])))
      case None => Raised(TypeError)
      case Some(items) => Ok((items, Truthy(GetOr(data, "has_more", JBool(false))), GetNull(data, "next_cursor")))
  }

  /** The request body: the base fields, plus the cursor when it is truthy. */
  function Payload(base: seq<(string, Json)>, cursor: Json): (p: Json)
    ensures p.JObj? && (HasKey(p.fields, "start_cursor") <==> HasKey(base, "start_cursor") || Truthy(cursor))
  {
    var extra := if Truthy(cursor) then [("start_cursor", cursor)] else [];
    assert Truthy(cursor) ==> (base + extra)[|base|].0 == "start_cursor";
    assert forall i :: 0 <= i < |base| ==> (base + extra)[i] == base[i];
    JObj(base + extra)
  }

  /** What one reply leads to: the end of the run, or another request with
      the reply's cursor. */
  datatype PageStep = Last(result: PageResult) | More(items: seq<Json>, next: Json)

  function StepOf(reply: Outcome<Json>): (st: PageStep)
    ensures st.Last? ==> !st.result.Unfinished?
  {
    match reply
    case Raised(e) => Last(Failed(e))
    case Ok(data) =>
      match ReadPage(data)
      case Raised(e) => Last(Failed(e))
      case Ok(page) => if page.1 then More(page.0, page.2) else Last(Done(page.0))
  }

  /** The pages from reply `k` on, the previous page's cursor being `cursor`. */
  function PagesFrom(base: seq<(string, Json)>, steps: seq<PageStep>, k: nat, cursor: Json): (run: PageRun)
    decreases |steps| - k
  {
    if k >= |steps| then PageRun(Unfinished, [])
    else
      var p := Payload(base, cursor);
      match steps[k]
      case Last(result) => PageRun(result, [p])
      case More(items, next) => Prefixed(items, [p], PagesFrom(base, steps, k + 1, next))
  }

  /** `run` preceded by pages already collected and bodies already sent. */
  function Prefixed(results: seq<Json>, payloads: seq<Json>, run: PageRun): PageRun {
    PageRun(if run.result.Done? then Done(results + run.result.results) else run.result, payloads + run.payloads)
  }

  lemma PrefixedTwice(r1: seq<Json>, p1: seq<Json>, r2: seq<Json>, p2: seq<Json>, run: PageRun)
    ensures Prefixed(r1, p1, Prefixed(r2, p2, run)) == Prefixed(r1 + r2, p1 + p2, run)
  {
    if run.result.Done? {
      assert r1 + (r2 + run.result.results) == r1 + r2 + run.result.results;
    }
    assert p1 + (p2 + run.payloads) == p1 + p2 + run.payloads;
  }

  /** The cursor a reply hands to the next request. */
  function NextCursor(st: PageStep): Json {
    if st.More? then st.next else JNull
  }

  /** The results a reply contributes. */
  function PageItems(st: PageStep): seq<Json> {
    if st.More? then st.items else if st.result.Done? then st.result.results else []
  }

  /** Whether a reply announces more pages. */
  predicate HasMore(st: PageStep) {
    st.More?
  }

  function AllItems(steps: seq<PageStep>): seq<Json> {
    if steps == [] then [] else PageItems(steps[0]) + AllItems(steps[1..])
  }

  /** A run started at reply `k` sends one request per reply it reads. */
  lemma {:induction false} PagesLength(base: seq<(string, Json)>, steps: seq<PageStep>, k: nat, cursor: Json)
    ensures var run := PagesFrom(base, steps, k, cursor);
      (k >= |steps| ==> run == PageRun(Unfinished, []))
      && (k < |steps| ==> 1 <= |run.payloads| && k + |run.payloads| <= |steps|)
    decreases |steps| - k
  {
    if k < |steps| {
      match steps[k]
      case Last(_) =>
      case More(_, next) => PagesLength(base, steps, k + 1, next);
    }
  }

  /** Request `j` of `payloads`, sent from reply `k` on, carries the cursor
      of reply `k + j - 1`, and the first carries `cursor`. */
  predicate CursorsFrom(base: seq<(string, Json)>, steps: seq<PageStep>, k: nat, cursor: Json, payloads: seq<Json>) {
    (payloads != [] ==> k + |payloads| <= |steps| && payloads[0] == Payload(base, cursor))
    && forall j :: 0 < j < |payloads| ==> payloads[j] == Payload(base, NextCursor(steps[k + j - 1]))
  }

  lemma CursorsCons(base: seq<(string, Json)>, steps: seq<PageStep>, k: nat, cursor: Json, rest: seq<Json>)
    requires k < |steps| && steps[k].More? && CursorsFrom(base, steps, k + 1, steps[k].next, rest)
    ensures CursorsFrom(base, steps, k, cursor, [Payload(base, cursor)] + rest)
  {
    var all := [Payload(base, cursor)] + rest;
    forall j | 0 < j < |all|
      ensures all[j] == Payload(base, NextCursor(steps[k + j - 1]))
    {
      assert all[j] == rest[j - 1];
      if j > 1 {
        assert rest[j - 1] == Payload(base, NextCursor(steps[k + 1 + (j - 1) - 1]));
      }
    }
  }

  /** Every request of a run carries the cursor of the reply before it; the
      first carries the cursor the run started with. */
  lemma {:induction false} PagesCursors(base: seq<(string, Json)>, steps: seq<PageStep>, k: nat, cursor: Json)
    ensures CursorsFrom(base, steps, k, cursor, PagesFrom(base, steps, k, cursor).payloads)
    decreases |steps| - k
  {
    if k < |steps| {
      match steps[k]
      case Last(_) =>
      case More(items, next) =>
        PagesCursors(base, steps, k + 1, next);
        CursorsCons(base, steps, k, cursor, PagesFrom(base, steps, k + 1, next).payloads);
    }
  }

  /** The `n - 1` replies from `k` on all announced more pages. */
  predicate MoreBefore(steps: seq<PageStep>, k: nat, n: nat) {
    (n > 0 ==> k + n - 1 <= |steps|) && forall i :: k <= i && i + 1 < k + n ==> HasMore(steps[i])
  }

  lemma MoreBeforeCons(steps: seq<PageStep>, k: nat, n: nat)
    requires k < |steps| && HasMore(steps[k]) && MoreBefore(steps, k + 1, n)
    ensures MoreBefore(steps, k, n + 1)
  {

  }

  /** Every reply but the last one a run reads announced more pages. */
  lemma {:induction false} PagesContinue(base: seq<(string, Json)>, steps: seq<PageStep>, k: nat, cursor: Json)
    ensures MoreBefore(steps, k, |PagesFrom(base, steps, k, cursor).payloads|)
    decreases |steps| - k
  {
    var run := PagesFrom(base, steps, k, cursor);
    if k < |steps| {
      match steps[k]
      case Last(_) =>
        assert |run.payloads| == 1;
      case More(items, next) =>
        var rest := PagesFrom(base, steps, k + 1, next);
        PagesContinue(base, steps, k + 1, next);
        assert |run.payloads| == |rest.payloads| + 1;
        MoreBeforeCons(steps, k, |rest.payloads|);
    }
  }

  /** `run`, started at reply `k`, read replies `k` up to its last request,
      collected their results in order, and ended at one without more pages. */
  predicate DoneAt(steps: seq<PageStep>, k: nat, run: PageRun) {
    1 <= |run.payloads| && k + |run.payloads| <= |steps|
    && run.result == Done(AllItems(steps[k..k + |run.payloads|]))
    && !HasMore(steps[k + |run.payloads| - 1])
  }

  lemma DoneAtCons(steps: seq<PageStep>, k: nat, items: seq<Json>, p: Json, rest: PageRun)
    requires k < |steps| && HasMore(steps[k]) && PageItems(steps[k]) == items
    requires DoneAt(steps, k + 1, rest)
    ensures DoneAt(steps, k, Prefixed(items, [p], rest))
  {
    var n := |rest.payloads|;
    var seen := steps[k..k + 1 + n];
    assert seen[0] == steps[k] && seen[1..] == steps[k + 1..k + 1 + n];
    assert AllItems(seen) == items + AllItems(seen[1..]);
  }

  /** A finished run holds every page's results in page order, and stopped
      at the first reply without `has_more`. */
  lemma {:induction false} PagesConcatenate(base: seq<(string, Json)>, steps: seq<PageStep>, k: nat, cursor: Json)
    ensures PagesFrom(base, steps, k, cursor).result.Done? ==> DoneAt(steps, k, PagesFrom(base, steps, k, cursor))
    decreases |steps| - k
  {
    if k < |steps| {
      match steps[k]
      case Last(result) =>
        var seen := steps[k..k + 1];
        assert seen == [steps[k]] && seen[1..] == [];
        assert AllItems(seen) == PageItems(steps[k]) + AllItems([]);
      case More(items, next) =>
        var rest := PagesFrom(base, steps, k + 1, next);
        PagesConcatenate(base, steps, k + 1, next);
        if rest.result.Done? {
          DoneAtCons(steps, k, items, Payload(base, cursor), rest);
        }
    }
  }

  /** The first request never carries a cursor. */
  lemma FirstRequestHasNoCursor(base: seq<(string, Json)>, steps: seq<PageStep>)
    requires steps != [] && !HasKey(base, "start_cursor")
    ensures var run := PagesFrom(base, steps, 0, JNull);
      |run.payloads| >= 1 && run.payloads[0] == JObj(base) && !HasKey(run.payloads[0].fields, "start_cursor")
  {
    assert base + [] == base;
  }

  /** What each reply leads to, in order. */
  function Steps(replies: seq<Outcome<Json>>): (st: seq<PageStep>)
    ensures |st| == |replies| && forall i :: 0 <= i < |replies| ==> st[i] == StepOf(replies[i])
  {
    seq(|replies|, i requires 0 <= i < |replies| => StepOf(replies[i]))
  }

  /** The pagination loop shared by `search_databases` and `query_database`,
      over the replies its successive requests receive. */
  method Paginate(base: seq<(string, Json)>, replies: seq<Outcome<Json>>) returns (run: PageRun)
    ensures run == PagesFrom(base, Steps(replies), 0, JNull)
  {
    ghost var steps := Steps(replies);
    var results: seq<Json> := [];
    var payloads: seq<Json> := [];
    var hasMore := true;
    var cursor := JNull;
    var k := 0;
    PrefixedNothing(PagesFrom(base, steps, 0, JNull));
    while hasMore
      invariant k <= |replies|
      invariant hasMore ==> PagesFrom(base, steps, 0, JNull) == Prefixed(results, payloads, PagesFrom(base, steps, k, cursor))
      invariant !hasMore ==> PagesFrom(base, steps, 0, JNull) == PageRun(Done(results), payloads)
      decreases |replies| - k, hasMore
    {
      if k >= |replies| {
        PagesEnd(base, steps, k, cursor, results, payloads);
        return PageRun(Unfinished, payloads);
      }
      var p := Payload(base, cursor);
      var step := StepOf(replies[k]);
      assert step == steps[k];
      if step.Last? {
        PagesLast(base, steps, k, cursor, results, payloads);
        if step.result.Failed? {
          return PageRun(step.result, payloads + [p]);
        }
        results := results + step.result.results;
        hasMore := false;
      } else {
        PagesMore(base, steps, k, cursor);
        PrefixedTwice(results, payloads, step.items, [p], PagesFrom(base, steps, k + 1, step.next));
        results := results + step.items;
        cursor := step.next;
      }
      payloads := payloads + [p];
      k := k + 1;
    }
    run := PageRun(Done(results), payloads);
  }

  lemma PrefixedNothing(run: PageRun)
    ensures Prefixed([], [], run) == run
  {
    assert [] + run.payloads == run.payloads;
    if run.result.Done? {
      assert [] + run.result.results == run.result.results;
    }
  }

  /** Past the last reply the loop has nothing left to read. */
  lemma PagesEnd(base: seq<(string, Json)>, steps: seq<PageStep>, k: nat, cursor: Json, results: seq<Json>, payloads: seq<Json>)
    requires k >= |steps|
    ensures Prefixed(results, payloads, PagesFrom(base, steps, k, cursor)) == PageRun(Unfinished, payloads)
  {
    assert payloads + [] == payloads;
  }

  /** A last reply ends the pages with its own result. */
  lemma PagesLast(base: seq<(string, Json)>, steps: seq<PageStep>, k: nat, cursor: Json, results: seq<Json>, payloads: seq<Json>)
    requires k < |steps| && steps[k].Last?
    ensures var p := Payload(base, cursor);
            var run := Prefixed(results, payloads, PagesFrom(base, steps, k, cursor));
            run == PageRun(if steps[k].result.Done? then Done(results + steps[k].result.results) else steps[k].result,
                           payloads + [p])
  {
  }

  /** A reply with more pages contributes its items and hands on its cursor. */
  lemma PagesMore(base: seq<(string, Json)>, steps: seq<PageStep>, k: nat, cursor: Json)
    requires k < |steps| && steps[k].More?
    ensures PagesFrom(base, steps, k, cursor)
            == Prefixed(steps[k].items, [Payload(base, cursor)], PagesFrom(base, steps, k + 1, steps[k].next))
  {
  }

  /** `query_database`'s body fields: the page size, and the filter when truthy. */
  function QueryBase(filter: Json, pageSize: int): (base: seq<(string, Json)>)
    ensures Lookup(base, "page_size") == Some(JNum(pageSize))
    ensures HasKey(base, "filter") <==> Truthy(filter)
    ensures Truthy(filter) ==> Lookup(base, "filter") == Some(filter)
    ensures !HasKey(base, "start_cursor")
  {
    var b := [("page_size", JNum(pageSize))];
    assert b[..0] == [];
    if Truthy(filter) then
      var b2 := b + [("filter", filter)];
      assert b2[..1] == b;
      b2
    else b
  }

  /** `search_databases`' body field: only databases. */
  const SearchFilter := JObj([("property", JStr("object")), ("value", JStr("database"))])

  function SearchBase(): (base: seq<(string, Json)>)
    ensures Lookup(base, "filter") == Some(SearchFilter) && !HasKey(base, "start_cursor")
  {
    var b := [("filter", SearchFilter)];
    assert b[..0] == [];
    b
  }

  method SearchDatabases(replies: seq<Outcome<Json>>) returns (run: PageRun)
    ensures run == PagesFrom(SearchBase(), Steps(replies), 0, JNull)
  {
    run := Paginate(SearchBase(), replies);
  }

  method QueryDatabase(filter: Json, pageSize: int, replies: seq<Outcome<Json>>) returns (run: PageRun)
    ensures run == PagesFrom(QueryBase(filter, pageSize), Steps(replies), 0, JNull)
  {
    run := Paginate(QueryBase(filter, pageSize), replies);
  }

  /** `test_connection`: whether searching succeeds; None where the failure
      is not a `RequestException` and propagates. */
  function ConnectionOk(search: PageResult): (r: Option<bool>)
    requires !search.Unfinished?
    ensures r == Some(true) <==> search.Done?
    ensures r.None? <==> search.Failed? && !IsRequestException(search.error)
  {
    if search.Done? then Some(true)
    else if IsRequestException(search.error) then Some(false)
    else None
  }

  // `batch_check_existing_pocket_ids`
  // ---------------------------------------------------------------------

  /** Notion's limit on the clauses of one OR filter. */
  const ChunkSize := 100

  /** The ids split in order into runs of at most 100. */
  function Chunks(ids: seq<string>): (cs: seq<seq<string>>)
    decreases |ids|
  {
    if ids == [] then []
    else
      var n := if |ids| < ChunkSize then |ids| else ChunkSize;
      [ids[..n]] + Chunks(ids[n..])
  }

  function Flatten(cs: seq<seq<string>>): seq<string> {
    if cs == [] then [] else cs[0] + Flatten(cs[1..])
  }

  /** The chunks put back together are the ids; there are ⌈n/100⌉ of them,
      none empty, each of at most 100 ids and all but the last of exactly 100. */
  lemma {:induction false} ChunksPartition(ids: seq<string>)
    ensures Flatten(Chunks(ids)) == ids
    ensures |Chunks(ids)| == (|ids| + ChunkSize - 1) / ChunkSize
    ensures forall c :: 0 <= c < |Chunks(ids)| ==> 1 <= |Chunks(ids)[c]| <= ChunkSize
    ensures forall c :: 0 <= c < |Chunks(ids)| - 1 ==> |Chunks(ids)[c]| == ChunkSize
    decreases |ids|
  {
    if ids != [] {
      var n := if |ids| < ChunkSize then |ids| else ChunkSize;
      var cs := Chunks(ids);
      var rest := Chunks(ids[n..]);
      ChunksPartition(ids[n..]);
      assert cs == [ids[..n]] + rest;
      assert cs[1..] == rest;
      assert ids[..n] + ids[n..] == ids;
      forall c | 0 < c < |cs| ensures 1 <= |cs[c]| <= ChunkSize {
        assert cs[c] == rest[c - 1];
      }
      forall c | 0 < c < |cs| - 1 ensures |cs[c]| == ChunkSize {
        assert cs[c] == rest[c - 1];
      }
      if n < ChunkSize {
        assert ids[n..] == [];
      }
    }
  }

  /** One clause: the property's rich text equals the id. */
  function Clause(property: string, id: string): Json {
    JObj([("property", JStr(property)), ("rich_text", JObj([("equals", JStr(id))]))])
  }

  /** The filter matching any of the chunk's ids. */
  function OrFilter(property: string, chunk: seq<string>): Json {
    JObj([("or", JArr(seq(|chunk|, k requires 0 <= k < |chunk| => Clause(property, chunk[k]))))])
  }

  /** The id a clause tests for, when it tests `property` for equality. */
  function ClauseId(property: string, clause: Json): Option<string> {
    if !clause.JObj? || GetNull(clause, "property") != JStr(property) then None
    else
      var rt := GetNull(clause, "rich_text");
      if rt.JObj? && GetNull(rt, "equals").JStr? then Some(GetNull(rt, "equals").s) else None
  }

  /** The ids an OR filter's clauses test for `property`, in order; None if
      any clause is of another form. */
  function FilterIds(property: string, filter: Json): Option<seq<string>> {
    if !filter.JObj? || !GetNull(filter, "or").JArr? then None
    else ClauseIds(property, GetNull(filter, "or").items)
  }

  function ClauseIds(property: string, clauses: seq<Json>): Option<seq<string>> {
    if clauses == [] then Some([])
    else
      var first := ClauseId(property, clauses[0]);
      var rest := ClauseIds(property, clauses[1..]);
      if first.None? || rest.None? then None else Some([first.value] + rest.value)
  }

  lemma ClauseRoundTrip(property: string, id: string)
    ensures ClauseId(property, Clause(property, id)) == Some(id)
  {
    var c := Clause(property, id);
    assert c.fields[..1] == [("property", JStr(property))];
    assert Lookup(c.fields, "property") == Some(JStr(property));
    assert Lookup([("equals", JStr(id))], "equals") == Some(JStr(id));
  }

  lemma {:induction false} ClauseIdsRoundTrip(property: string, chunk: seq<string>)
    ensures ClauseIds(property, seq(|chunk|, k requires 0 <= k < |chunk| => Clause(property, chunk[k]))) == Some(chunk)
  {
    var clauses := seq(|chunk|, k requires 0 <= k < |chunk| => Clause(property, chunk[k]));
    if chunk != [] {
      ClauseRoundTrip(property, chunk[0]);
      ClauseIdsRoundTrip(property, chunk[1..]);
      assert clauses[1..] == seq(|chunk[1..]|, k requires 0 <= k < |chunk[1..]| => Clause(property, chunk[1..][k]));
      assert [chunk[0]] + chunk[1..] == chunk;
    }
  }

  /** The OR filter holds exactly one equality clause per id of the chunk,
      on the given property, in the chunk's order. */
  lemma FilterNamesEachId(property: string, chunk: seq<string>)
    ensures FilterIds(property, OrFilter(property, chunk)) == Some(chunk)
  {
    ClauseIdsRoundTrip(property, chunk);
  }

  /** The error `rich_text[0]` raises on a truthy value that is not a list. */
  function IndexError(v: Json): Error {
    if v.JStr? then AttributeError else if v.JObj? then KeyError else TypeError
  }

  /** The id one returned page contributes: the first rich-text fragment's
      `plain_text` (default ""), nothing when the rich text is empty or
      missing, or the exception raised on a page of another shape. */
  function PageId(page: Json, property: string): Outcome<Option<string>> {
    if !page.JObj? then Raised(AttributeError)
    else
      var props := GetOr(page, "properties", JObj([]));
      if !props.JObj? then Raised(AttributeError)
      else
        var prop := GetOr(props, property, JObj([]));
        if !prop.JObj? then Raised(AttributeError)
        else
          var rt := GetOr(prop, "rich_text", JArr([]));
          if !Truthy(rt) then Ok(None)
          else if !rt.JArr? then Raised(IndexError(rt))
          else if !rt.items[0].JObj? then Raised(AttributeError)
          else
            var text := GetOr(rt.items[0], "plain_text", JStr(""));
            if text.JStr? then Ok(Some(text.s))
            else if text.JArr? || text.JObj? then Raised(TypeError)
            else Ok(None)
  }

  /** A page whose property has no rich text contributes nothing. */
  lemma NoRichTextNoId(page: Json, property: string)
    requires page.JObj? && GetOr(page, "properties", JObj([])).JObj?
    requires var prop := GetOr(GetOr(page, "properties", JObj([])), property, JObj([]));
      prop.JObj? && GetOr(prop, "rich_text", JArr([])) == JArr([])
    ensures PageId(page, property) == Ok(None)
  {
  }

  /** `more` after the ids already found. */
  function Plus(found: set<string>, more: Outcome<set<string>>): Outcome<set<string>> {
    if more.Ok? then Ok(found + more.value) else more
  }

  lemma PlusTwice(a: set<string>, b: set<string>, more: Outcome<set<string>>)
    ensures Plus(a, Plus(b, more)) == Plus(a + b, more)
  {
    if more.Ok? {
      assert a + (b + more.value) == a + b + more.value;
    }
  }

  /** The ids the pages contribute, in the order of the pages; the first
      page's exception if any page raises. */
  function PagesIds(pages: seq<Json>, property: string): Outcome<set<string>>
  {
    if pages == [] then Ok({})
    else
      match PageId(pages[0], property)
      case Raised(e) => Raised(e)
      case Ok(first) => Plus(if first.Some? then {first.value} else {}, PagesIds(pages[1..], property))
  }

  /** The ids found on the pages, as a set. */
  function FoundOn(pages: seq<Json>, property: string): set<string> {
    set j, s | 0 <= j < |pages| && s in PageIdSet(pages[j], property) :: s
  }

  function PageIdSet(page: Json, property: string): set<string> {
    var r := PageId(page, property);
    if r.Ok? && r.value.Some? then {r.value.value} else {}
  }

  /** Extraction succeeds exactly when no page raises, and then yields the
      ids found on the pages. */
  lemma {:induction false} PagesIdsMeaning(pages: seq<Json>, property: string)
    ensures PagesIds(pages, property).Ok? <==> forall j :: 0 <= j < |pages| ==> PageId(pages[j], property).Ok?
    ensures PagesIds(pages, property).Ok? ==> PagesIds(pages, property).value == FoundOn(pages, property)
  {
    if pages != [] {
      PagesIdsMeaning(pages[1..], property);
      var rest := pages[1..];
      assert forall j :: 0 < j < |pages| ==> pages[j] == rest[j - 1];
      if PagesIds(pages, property).Ok? {
        var all := FoundOn(pages, property);
        var tail := FoundOn(rest, property);
        forall s | s in all ensures s in PageIdSet(pages[0], property) + tail {
          var j :| 0 <= j < |pages| && s in PageIdSet(pages[j], property);
          if j > 0 {
            assert s in PageIdSet(rest[j - 1], property);
          }
        }
        forall s | s in PageIdSet(pages[0], property) + tail ensures s in all {
          if s !in PageIdSet(pages[0], property) {
            var j :| 0 <= j < |rest| && s in PageIdSet(rest[j], property);
            assert pages[j + 1] == rest[j];
          }
        }
      }
    }
  }

  /** The chunks from `chunks` on: each one's filter is queried (the query
      abstracted as `query`) and its pages' ids collected; the first failure
      ends the check. Returns the result and the filters sent. */
  function CheckChunks(chunks: seq<seq<string>>, property: string, query: Json -> Outcome<seq<Json>>)
    : (Outcome<set<string>>, seq<Json>)
  {
    if chunks == [] then (Ok({}), [])
    else
      var filter := OrFilter(property, chunks[0]);
      match query(filter)
      case Raised(e) => (Raised(e), [filter])
      case Ok(pages) =>
        match PagesIds(pages, property)
        case Raised(e) => (Raised(e), [filter])
        case Ok(found) =>
          var rest := CheckChunks(chunks[1..], property, query);
          (if rest.0.Ok? then Ok(found + rest.0.value) else rest.0, [filter] + rest.1)
  }

  /** The ids collected before, followed by the check of the remaining chunks. */
  function Continue(found: set<string>, sent: seq<Json>, rest: (Outcome<set<string>>, seq<Json>)): (Outcome<set<string>>, seq<Json>) {
    (if rest.0.Ok? then Ok(found + rest.0.value) else rest.0, sent + rest.1)
  }

  lemma ContinueTwice(f1: set<string>, s1: seq<Json>, f2: set<string>, s2: seq<Json>, rest: (Outcome<set<string>>, seq<Json>))
    ensures Continue(f1, s1, Continue(f2, s2, rest)) == Continue(f1 + f2, s1 + s2, rest)
  {
    assert s1 + (s2 + rest.1) == s1 + s2 + rest.1;
    if rest.0.Ok? {
      assert f1 + (f2 + rest.0.value) == f1 + f2 + rest.0.value;
    }
  }

  lemma ChunksFrom(ids: seq<string>, i: nat)
    requires i < |ids|
    ensures var n := if |ids| - i < ChunkSize then |ids| else i + ChunkSize;
      Chunks(ids[i..]) == [ids[i..n]] + Chunks(ids[n..])
  {
    var n := if |ids| - i < ChunkSize then |ids| else i + ChunkSize;
    assert ids[i..][..n - i] == ids[i..n];
    assert ids[i..][n - i..] == ids[n..];
  }

  /** The inner loop of the check: the ids on one query's pages. */
  method ExtractIds(pages: seq<Json>, property: string) returns (r: Outcome<set<string>>)
    ensures r == PagesIds(pages, property)
  {
    var found: set<string> := {};
    var j := 0;
    assert pages[0..] == pages;
    assert PagesIds(pages, property).Ok? ==> {} + PagesIds(pages, property).value == PagesIds(pages, property).value;
    while j < |pages|
      invariant 0 <= j <= |pages|
      invariant PagesIds(pages, property) == Plus(found, PagesIds(pages[j..], property))
      decreases |pages| - j
    {
      var id := PageId(pages[j], property);
      assert pages[j..][1..] == pages[j + 1..];
      if id.Raised? {
        return Raised(id.error);
      }
      var add: set<string> := if id.value.Some? then {id.value.value} else {};
      PlusTwice(found, add, PagesIds(pages[j + 1..], property));
      found := found + add;
      j := j + 1;
    }
    assert pages[j..] == [];
    r := Ok(found);
  }

  /** `batch_check_existing_pocket_ids`: the ids among `ids` already stored
      in the database, querying one OR filter per chunk of 100. */
  method BatchCheckExisting(ids: seq<string>, property: string, query: Json -> Outcome<seq<Json>>)
    returns (r: Outcome<set<string>>, sent: seq<Json>)
    ensures (r, sent) == CheckChunks(Chunks(ids), property, query)
    ensures ids == [] ==> r == Ok({}) && sent == []
  {
    if ids == [] {
      return Ok({}), [];
    }
    var existing: set<string> := {};
    sent := [];
    var i := 0;
    ghost var all := CheckChunks(Chunks(ids), property, query);
    assert ids[0..] == ids && [] + all.1 == all.1;
    assert all.0.Ok? ==> {} + all.0.value == all.0.value;
    while i < |ids|
      invariant 0 <= i <= |ids|
      invariant CheckChunks(Chunks(ids), property, query) == Continue(existing, sent, CheckChunks(Chunks(ids[i..]), property, query))
      decreases |ids| - i
    {
      var n := if |ids| - i < ChunkSize then |ids| else i + ChunkSize;
      var chunk := ids[i..n];
      ChunksFrom(ids, i);
      var filter := OrFilter(property, chunk);
      var results := query(filter);
      if results.Raised? {
        return Raised(results.error), sent + [filter];
      }
      var pages := results.value;
      ghost var later := CheckChunks(Chunks(ids[n..]), property, query);
      var extracted := ExtractIds(pages, property);
      if extracted.Raised? {
        return Raised(extracted.error), sent + [filter];
      }
      var found := extracted.value;
      ContinueTwice(existing, sent, found, [filter], later);
      existing := existing + found;
      sent := sent + [filter];
      i := n;
    }
    assert ids[i..] == [];
    assert sent + [] == sent;
    r := Ok(existing);
  }

  /** The ids the query for `chunk` finds, if it succeeds. */
  function ChunkFound(chunk: seq<string>, property: string, query: Json -> Outcome<seq<Json>>): set<string> {
    var q := query(OrFilter(property, chunk));
    if q.Ok? then FoundOn(q.value, property) else {}
  }

  /** Filter `c` sent is the OR filter of chunk `c`; a successful check sent
      one for every chunk. */
  predicate SentFilters(chunks: seq<seq<string>>, property: string, out: (Outcome<set<string>>, seq<Json>)) {
    |out.1| <= |chunks| && (out.0.Ok? ==> |out.1| == |chunks|)
    && forall c :: 0 <= c < |out.1| ==> out.1[c] == OrFilter(property, chunks[c])
  }

  lemma {:induction false} CheckChunksFilters(chunks: seq<seq<string>>, property: string, query: Json -> Outcome<seq<Json>>)
    ensures SentFilters(chunks, property, CheckChunks(chunks, property, query))
  {
    if chunks != [] {
      CheckChunksFilters(chunks[1..], property, query);
      FiltersStep(chunks, property, query);
    }
  }

  lemma FiltersStep(chunks: seq<seq<string>>, property: string, query: Json -> Outcome<seq<Json>>)
    requires chunks != [] && SentFilters(chunks[1..], property, CheckChunks(chunks[1..], property, query))
    ensures SentFilters(chunks, property, CheckChunks(chunks, property, query))
  {
    var filter := OrFilter(property, chunks[0]);
    match query(filter)
    case Raised(_) =>
    case Ok(pages) =>
      match PagesIds(pages, property)
      case Raised(_) =>
      case Ok(found) =>
        var rest := CheckChunks(chunks[1..], property, query);
        assert CheckChunks(chunks, property, query) == Continue(found, [filter], rest);
        FiltersCons(chunks, property, rest.1);
  }

  /** The first chunk's filter followed by the rest's filters. */
  lemma FiltersCons(chunks: seq<seq<string>>, property: string, tail: seq<Json>)
    requires chunks != [] && |tail| <= |chunks| - 1
    requires forall c :: 0 <= c < |tail| ==> tail[c] == OrFilter(property, chunks[1..][c])
    ensures forall c :: 0 <= c < |tail| + 1 ==> ([OrFilter(property, chunks[0])] + tail)[c] == OrFilter(property, chunks[c])
  {
    forall c | 0 < c < |tail| + 1 ensures ([OrFilter(property, chunks[0])] + tail)[c] == OrFilter(property, chunks[c]) {
      assert chunks[c] == chunks[1..][c - 1];
    }
  }

  /** The union of the ids the chunks' queries find. */
  function AllFound(chunks: seq<seq<string>>, property: string, query: Json -> Outcome<seq<Json>>): set<string> {
    if chunks == [] then {} else ChunkFound(chunks[0], property, query) + AllFound(chunks[1..], property, query)
  }

  lemma {:induction false} AllFoundMembers(chunks: seq<seq<string>>, property: string, query: Json -> Outcome<seq<Json>>, s: string)
    ensures s in AllFound(chunks, property, query) <==> exists c :: 0 <= c < |chunks| && s in ChunkFound(chunks[c], property, query)
  {
    if chunks != [] {
      AllFoundMembers(chunks[1..], property, query, s);
      if s in AllFound(chunks[1..], property, query) {
        var c :| 0 <= c < |chunks[1..]| && s in ChunkFound(chunks[1..][c], property, query);
        assert chunks[1..][c] == chunks[c + 1];
      }
      if exists c :: 0 <= c < |chunks| && s in ChunkFound(chunks[c], property, query) {
        var c :| 0 <= c < |chunks| && s in ChunkFound(chunks[c], property, query);
        if c > 0 {
          assert chunks[c] == chunks[1..][c - 1];
        }
      }
    }
  }

  /** A successful check returns exactly the ids found by the chunks' queries:
      `s` is returned iff some chunk's query found it. */
  lemma {:induction false} CheckChunksFound(chunks: seq<seq<string>>, property: string, query: Json -> Outcome<seq<Json>>)
    ensures var r := CheckChunks(chunks, property, query).0;
      r.Ok? ==> r.value == AllFound(chunks, property, query)
  {
    var r := CheckChunks(chunks, property, query).0;
    if chunks != [] && r.Ok? {
      var q := query(OrFilter(property, chunks[0]));
      PagesIdsMeaning(q.value, property);
      CheckChunksFound(chunks[1..], property, query);
    }
  }

  // `create_page`, `create_property`, `ensure_properties_exist`
  // ---------------------------------------------------------------------

  /** The body `create_page` posts: the parent database and the properties
      always; the children and the emoji icon only when non-empty. */
  datatype PagePayload = PagePayload(
    databaseId: string,
    properties: seq<(string, PropValue)>,
    children: Option<seq<Block>>,
    icon: Option<string>)

  /** `create_page`'s body; an icon of None stands for an absent or empty icon. */
  function CreatePagePayload(databaseId: string, properties: seq<(string, PropValue)>,
                             children: seq<Block>, icon: Option<string>): (p: PagePayload)
    ensures p.databaseId == databaseId && p.properties == properties
    ensures p.children.Some? <==> children != []
    ensures p.children.Some? ==> p.children.value == children
    ensures p.icon == icon
  {
    PagePayload(databaseId, properties, if children == [] then None else Some(children), icon)
  }

  /** The property types `create_property` knows. */
  const KnownPropertyTypes: set<string> := {"rich_text", "url", "select", "date", "checkbox", "multi_select"}

  /** The configuration of a new property of type `t`: `{t: {}}`, with an
      empty option list for the select types, and rich text for any other type. */
  function PropertyConfig(t: string): Json {
    if t == "select" || t == "multi_select" then JObj([(t, JObj([("options", JArr([]))]))])
    else if t in KnownPropertyTypes then JObj([(t, JObj([]))])
    else JObj([("rich_text", JObj([]))])
  }

  /** The type a property configuration declares: its only key. */
  function DeclaredType(config: Json): Option<string> {
    if config.JObj? && |config.fields| == 1 then Some(config.fields[0].0) else None
  }

  /** A known type is created as itself, any other as rich text; only the
      select types carry an (empty) option list. */
  lemma PropertyConfigType(t: string)
    ensures DeclaredType(PropertyConfig(t)) == Some(if t in KnownPropertyTypes then t else "rich_text")
    ensures var body := PropertyConfig(t).fields[0].1;
      body.JObj? && (HasKey(body.fields, "options") <==> t == "select" || t == "multi_select")
  {
    var body := PropertyConfig(t).fields[0].1;
    if t == "select" || t == "multi_select" {
      assert body.fields[0].0 == "options";
    }
  }

  /** `create_property`'s body: `{"properties": {name: config}}`. */
  function PropertyPayload(name: string, t: string): Json {
    JObj([("properties", JObj([(name, PropertyConfig(t))]))])
  }

  /** The body names exactly one property, `name`, configured for type `t`. */
  lemma PropertyPayloadShape(name: string, t: string)
    ensures var p := PropertyPayload(name, t);
      p.JObj? && Lookup(p.fields, "properties").Some?
      && var props := Lookup(p.fields, "properties").value;
      props.JObj? && Keys(props.fields) == [name] && Lookup(props.fields, name) == Some(PropertyConfig(t))
  {
    var props := [(name, PropertyConfig(t))];
    assert props[..0] == [] && Keys(props[..0]) == [];
    var p := [("properties", JObj(props))];
    assert p[..0] == [];
  }

  /** The required properties not yet in the schema, in order. */
  function Missing(required: seq<(string, string)>, existing: set<string>): (m: seq<(string, string)>)
  {
    if required == [] then []
    else (if required[0].0 in existing then [] else [required[0]]) + Missing(required[1..], existing)
  }

  function Names(props: seq<(string, string)>): (names: seq<string>)
    ensures |names| == |props|
  {
    seq(|props|, i requires 0 <= i < |props| => props[i].0)
  }

  /** A dictionary's items: no key twice. */
  predicate DistinctKeys<V>(items: seq<(string, V)>) {
    forall i, j :: 0 <= i < j < |items| ==> items[i].0 != items[j].0
  }

  /** The properties created are exactly the required ones whose names are
      missing from the schema. */
  lemma {:induction false} MissingMembers(required: seq<(string, string)>, existing: set<string>)
    ensures forall p :: p in Missing(required, existing) <==> p in required && p.0 !in existing
  {
    if required != [] {
      MissingMembers(required[1..], existing);
      assert required == [required[0]] + required[1..];
    }
  }

  /** No name is created twice. */
  lemma {:induction false} MissingDistinct(required: seq<(string, string)>, existing: set<string>)
    requires DistinctKeys(required)
    ensures DistinctKeys(Missing(required, existing))
  {
    if required != [] {
      var rest := required[1..];
      assert DistinctKeys(rest) by {
        forall i, j | 0 <= i < j < |rest| ensures rest[i].0 != rest[j].0 {
          assert rest[i] == required[i + 1] && rest[j] == required[j + 1];
        }
      }
      MissingDistinct(rest, existing);
      MissingMembers(rest, existing);
      var mr := Missing(rest, existing);
      if required[0].0 !in existing {
        var m := [required[0]] + mr;
        forall j | 0 < j < |m| ensures m[0].0 != m[j].0 {
          assert m[j] in mr;
          var k :| 0 <= k < |rest| && rest[k] == m[j];
          assert required[k + 1] == rest[k];
        }
        assert forall i, j :: 0 < i < j < |m| ==> m[i] == mr[i - 1] && m[j] == mr[j - 1];
      }
    }
  }

  /** Creating the missing properties in order, `patch` being the outcome of
      the PATCH request for a body; the first failure propagates. Returns the
      names created and the bodies sent. */
  function CreateAll(missing: seq<(string, string)>, patch: Json -> Outcome<Json>): (Outcome<seq<string>>, seq<Json>)
  {
    if missing == [] then (Ok([]), [])
    else
      var body := PropertyPayload(missing[0].0, missing[0].1);
      match patch(body)
      case Raised(e) => (Raised(e), [body])
      case Ok(_) =>
        var rest := CreateAll(missing[1..], patch);
        (if rest.0.Ok? then Ok([missing[0].0] + rest.0.value) else rest.0, [body] + rest.1)
  }

  /** The bodies sent are those of the first missing properties, in order. */
  lemma {:induction false} CreateAllSends(missing: seq<(string, string)>, patch: Json -> Outcome<Json>)
    ensures var sent := CreateAll(missing, patch).1;
      |sent| <= |missing| && forall i :: 0 <= i < |sent| ==> sent[i] == PropertyPayload(missing[i].0, missing[i].1)
  {
    if missing != [] {
      var body := PropertyPayload(missing[0].0, missing[0].1);
      if patch(body).Ok? {
        CreateAllSends(missing[1..], patch);
        var sent := CreateAll(missing, patch).1;
        var rest := CreateAll(missing[1..], patch).1;
        assert sent == [body] + rest;
        forall i | 0 < i < |sent| ensures sent[i] == PropertyPayload(missing[i].0, missing[i].1) {
          assert sent[i] == rest[i - 1] && missing[i] == missing[1..][i - 1];
        }
      }
    }
  }

  /** A successful run creates every missing property, one request each. */
  lemma {:induction false} CreateAllCreates(missing: seq<(string, string)>, patch: Json -> Outcome<Json>)
    ensures var (r, sent) := CreateAll(missing, patch);
      r.Ok? ==> r.value == Names(missing) && |sent| == |missing|
  {
    if missing != [] {
      var body := PropertyPayload(missing[0].0, missing[0].1);
      if patch(body).Ok? {
        CreateAllCreates(missing[1..], patch);
        assert Names(missing) == [missing[0].0] + Names(missing[1..]);
      }
    }
  }

  /** One turn of the creation loop, at position `k` of `required`. */
  lemma CreateStep(required: seq<(string, string)>, existing: set<string>, patch: Json -> Outcome<Json>,
                   k: nat, created: seq<string>, sent: seq<Json>)
    requires k < |required|
    ensures var (name, t) := required[k];
      var body := PropertyPayload(name, t);
      var later := CreateAll(Missing(required[k + 1..], existing), patch);
      AfterCreated(created, sent, CreateAll(Missing(required[k..], existing), patch))
        == if name in existing then AfterCreated(created, sent, later)
           else if patch(body).Ok? then AfterCreated(created + [name], sent + [body], later)
           else (Raised(patch(body).error), sent + [body])
  {
    var (name, t) := required[k];
    var rest := Missing(required[k + 1..], existing);
    assert required[k..][0] == required[k] && required[k..][1..] == required[k + 1..];
    if name in existing {
      assert Missing(required[k..], existing) == [] + rest == rest;
    } else {
      var body := PropertyPayload(name, t);
      assert Missing(required[k..], existing) == [required[k]] + rest;
      assert ([required[k]] + rest)[0] == required[k] && ([required[k]] + rest)[1..] == rest;
      if patch(body).Ok? {
        AfterCreatedTwice(created, sent, [name], [body], CreateAll(rest, patch));
      }
    }
  }

  /** The schema's property names, or the exception raised reading them. */
  function SchemaNames(database: Json): Outcome<set<string>> {
    if !database.JObj? then Raised(AttributeError)
    else
      var schema := GetOr(database, "properties", JObj([]));
      if !schema.JObj? then Raised(AttributeError)
      else Ok(set k | k in Keys(schema.fields))
  }

  /** The prefix of the missing properties already created, then the rest. */
  function AfterCreated(created: seq<string>, sent: seq<Json>, rest: (Outcome<seq<string>>, seq<Json>)): (Outcome<seq<string>>, seq<Json>) {
    (if rest.0.Ok? then Ok(created + rest.0.value) else rest.0, sent + rest.1)
  }

  lemma AfterCreatedTwice(c1: seq<string>, s1: seq<Json>, c2: seq<string>, s2: seq<Json>, rest: (Outcome<seq<string>>, seq<Json>))
    ensures AfterCreated(c1, s1, AfterCreated(c2, s2, rest)) == AfterCreated(c1 + c2, s1 + s2, rest)
  {
    assert s1 + (s2 + rest.1) == s1 + s2 + rest.1;
    if rest.0.Ok? {
      assert c1 + (c2 + rest.0.value) == c1 + c2 + rest.0.value;
    }
  }

  /** The loop of `ensure_properties_exist`: each required property whose
      name is not in `existing` is created, in order. */
  method CreateMissing(required: seq<(string, string)>, existing: set<string>, patch: Json -> Outcome<Json>)
    returns (r: Outcome<seq<string>>, sent: seq<Json>)
    ensures (r, sent) == CreateAll(Missing(required, existing), patch)
  {
    var created: seq<string> := [];
    sent := [];
    var k := 0;
    ghost var all := CreateAll(Missing(required, existing), patch);
    assert required[0..] == required && [] + all.1 == all.1;
    assert all.0.Ok? ==> [] + all.0.value == all.0.value;
    while k < |required|
      invariant 0 <= k <= |required|
      invariant all == AfterCreated(created, sent, CreateAll(Missing(required[k..], existing), patch))
      decreases |required| - k
    {
      var (name, t) := required[k];
      CreateStep(required, existing, patch, k, created, sent);
      if name !in existing {
        var body := PropertyPayload(name, t);
        var outcome := patch(body);
        if outcome.Raised? {
          return Raised(outcome.error), sent + [body];
        }
        created := created + [name];
        sent := sent + [body];
      }
      k := k + 1;
    }
    assert required[k..] == [];
    assert sent + [] == sent && created + [] == created;
    r := Ok(created);
  }

  /** `ensure_properties_exist`: `database` is the outcome of fetching the
      database, `patch` that of each property-creating request. */
  method EnsurePropertiesExist(required: seq<(string, string)>, database: Outcome<Json>, patch: Json -> Outcome<Json>)
    returns (r: Outcome<seq<string>>, sent: seq<Json>)
    requires DistinctKeys(required)
    ensures database.Raised? ==> r == Raised(database.error) && sent == []
    ensures database.Ok? && SchemaNames(database.value).Raised? ==> r == Raised(SchemaNames(database.value).error) && sent == []
    ensures database.Ok? && SchemaNames(database.value).Ok? ==>
      (r, sent) == CreateAll(Missing(required, SchemaNames(database.value).value), patch)
  {
    if database.Raised? {
      return Raised(database.error), [];
    }
    var names := SchemaNames(database.value);
    if names.Raised? {
      return Raised(names.error), [];
    }
    r, sent := CreateMissing(required, names.value, patch);
  }

  // `format_databases_for_display`
  // ---------------------------------------------------------------------

  /** One database as the setup wizard lists it. */
  datatype DisplayEntry = DisplayEntry(id: Json, title: Json, emoji: Json, url: Json)

  /** The page-facing-up emoji shown when a database has no emoji icon. */
  const PageEmoji := "\U{1F4C4}"

  /** The first title fragment's text (default "Untitled"), "Untitled" when
      the title is empty or missing. */
  function DisplayTitle(db: Json): Outcome<Json>
    requires db.JObj?
  {
    var parts := GetOr(db, "title", JArr([]));
    if !Truthy(parts) then Ok(JStr("Untitled"))
    else if !parts.JArr? then Raised(IndexError(parts))
    else if !parts.items[0].JObj? then Raised(AttributeError)
    else Ok(GetOr(parts.items[0], "plain_text", JStr("Untitled")))
  }

  /** Whether the icon is a dictionary whose `type` is "emoji". */
  predicate EmojiIcon(icon: Json) {
    icon.JObj? && GetNull(icon, "type") == JStr("emoji")
  }

  /** The icon's emoji (default the page emoji) for an emoji icon, the page
      emoji for an absent or other icon. */
  function DisplayEmoji(db: Json): Outcome<Json>
    requires db.JObj?
  {
    var icon := GetOr(db, "icon", JObj([]));
    if !Truthy(icon) then Ok(JStr(PageEmoji))
    else if !icon.JObj? then Raised(AttributeError)
    else if EmojiIcon(icon) then Ok(GetOr(icon, "emoji", JStr(PageEmoji)))
    else Ok(JStr(PageEmoji))
  }

  /** The entry for one database, or the exception raised building it. */
  function FormatOne(db: Json): (r: Outcome<DisplayEntry>)
    ensures db.JObj? && !HasKey(db.fields, "id") ==> r.Raised?
    ensures r.Ok? ==> db.JObj? && Lookup(db.fields, "id") == Some(r.value.id)
    ensures r.Ok? && !Truthy(GetOr(db, "title", JArr([]))) ==> r.value.title == JStr("Untitled")
    ensures r.Ok? && !EmojiIcon(GetOr(db, "icon", JObj([]))) ==> r.value.emoji == JStr(PageEmoji)
    ensures r.Ok? ==> r.value.url == GetOr(db, "url", JStr(""))
  {
    if !db.JObj? then Raised(AttributeError)
    else
      match DisplayTitle(db)
      case Raised(e) => Raised(e)
      case Ok(title) =>
        match DisplayEmoji(db)
        case Raised(e) => Raised(e)
        case Ok(emoji) =>
          match Lookup(db.fields, "id")
          case None => Raised(KeyError)
          case Some(id) => Ok(DisplayEntry(id, title, emoji, GetOr(db, "url", JStr(""))))
  }

  /** `format_databases_for_display`: one entry per database, in order; the
      first database that cannot be formatted raises. */
  method FormatDatabasesForDisplay(databases: seq<Json>) returns (r: Outcome<seq<DisplayEntry>>)
    ensures r.Ok? <==> forall j :: 0 <= j < |databases| ==> FormatOne(databases[j]).Ok?
    ensures r.Ok? ==> |r.value| == |databases|
    ensures r.Ok? ==> forall j :: 0 <= j < |databases| ==> r.value[j] == FormatOne(databases[j]).value
    ensures r.Raised? ==>
              exists j :: 0 <= j < |databases| && FormatOne(databases[j]).Raised? &&
                r.error == FormatOne(databases[j]).error && forall i :: 0 <= i < j ==> FormatOne(databases[i]).Ok?
  {
    var formatted: seq<DisplayEntry> := [];
    var k := 0;
    while k < |databases|
      invariant 0 <= k <= |databases| && |formatted| == k
      invariant forall j :: 0 <= j < k ==> FormatOne(databases[j]).Ok? && formatted[j] == FormatOne(databases[j]).value
      decreases |databases| - k
    {
      var entry := FormatOne(databases[k]);
      if entry.Raised? {
        return Raised(entry.error);
      }
      formatted := formatted + [entry.value];
      k := k + 1;
    }
    r := Ok(formatted);
  }
}
