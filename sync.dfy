/**
 * One sync pass. It fetches the recordings made since the watermark and asks
 * Notion which of their keys the database already holds. It creates a page
 * for each of the others, or only counts them on a dry run. It tallies the
 * outcome and advances the watermark.
 *
 * The Pocket and Notion services are functions passed in. The pass returns
 * every call it makes to them, in order.
 */
module Sync {
  import opened Text
  import opened Json
  import opened Reliability
  import opened Blocks
  import opened MindMap
  import opened Models
  import opened Configuration
  import Pocket
  import Notion

  const NotConfiguredError := "Not configured. Run 'powerflow setup' first."
  const FetchFailedPrefix := "Failed to fetch from Pocket: "
  const CheckFailedPrefix := "Failed to check existing items: "
  const DefaultPocketIdProperty := "Inbox ID"

  /**
   * What the pass talks to:
   *  - `fetch`: `fetch_recordings(since)`: the recordings, or the exception it raises;
   *  - `check`: `batch_check_existing_pocket_ids(database, ids, property)`;
   *  - `create`: the exception, if any, that the n-th `create_page` call raises for its body;
   *  - `describe`: `str(e)`;
   *  - `dueFormat`, `capturedFormat`: the date renderings of the page body;
   *  - `unbounded`: `to_notion_children` for a recording whose mind-map ids repeat.
   *    The traversal then has no bound (it may end, or raise `RecursionError`).
   */
  datatype Services = Services(
    fetch: Option<int> -> Outcome<seq<Recording>>,
    check: (string, seq<string>, string) -> Outcome<set<string>>,
    create: (nat, Notion.PagePayload) -> Option<Error>,
    describe: Error -> string,
    dueFormat: int -> string,
    capturedFormat: int -> string,
    unbounded: Recording -> Outcome<seq<Block>>)

  /** A call the pass makes to a service. */
  datatype Call =
    | Fetch(since: Option<int>)
    | Check(databaseId: string, ids: seq<string>, property: string)
    | Create(payload: Notion.PagePayload)

  /** `parse_last_sync` of the stored watermark. It is Pocket's
      `parse_datetime`: the code is the same. */
  function Since(v: ConfigValue): Option<int> {
    Pocket.ParseDatetime(v.lastSync)
  }

  /** `property_map.get("pocket_id", "Inbox ID")` */
  function PocketIdProperty(v: ConfigValue): string {
    NameFor(v.propertyMap, "pocket_id", DefaultPocketIdProperty)
  }

  /** The dedup keys of the fetched recordings, in fetch order. */
  function PocketIds(recs: seq<Recording>): (ids: seq<string>)
    ensures |ids| == |recs|
    ensures forall i :: 0 <= i < |recs| ==> ids[i] == PocketId(recs[i])
  {
    seq(|recs|, i requires 0 <= i < |recs| => PocketId(recs[i]))
  }

  // ---------------------------------------------------------------------
  // The per-recording loop
  // ---------------------------------------------------------------------

  /** What stays fixed through the loop: the keys Notion holds, the dry-run
      flag, how a recording's page is built, and the services. */
  datatype Context = Context(
    existing: set<string>,
    dryRun: bool,
    page: Recording -> Outcome<Notion.PagePayload>,
    create: (nat, Notion.PagePayload) -> Option<Error>,
    describe: Error -> string)

  /** `to_notion_children()` */
  function Children(r: Recording, s: Services): Outcome<seq<Block>> {
    if DistinctIds(r.mindMap) then Ok(PageBody(r, s.dueFormat, s.capturedFormat)) else s.unbounded(r)
  }

  /** The `create_page` body for `r`, or the exception building it raises. */
  function Page(r: Recording, databaseId: string, propertyMap: PropertyMap, s: Services): Outcome<Notion.PagePayload> {
    match Children(r, s)
    case Raised(e) => Raised(e)
    case Ok(children) =>
      Ok(Notion.CreatePagePayload(databaseId, Properties(r, propertyMap), children, Some(Icon(r.tags))))
  }

  function PageFor(databaseId: string, propertyMap: PropertyMap, s: Services): Recording -> Outcome<Notion.PagePayload> {
    r => Page(r, databaseId, propertyMap, s)
  }

  /** The loop context of a pass over database `databaseId`. */
  function LoopContext(existing: set<string>, dryRun: bool, databaseId: string, propertyMap: PropertyMap, s: Services): (c: Context)
    ensures c.existing == existing && c.dryRun == dryRun
  {
    Context(existing, dryRun, PageFor(databaseId, propertyMap, s), s.create, s.describe)
  }

  function FailureMessage(r: Recording, e: Error, describe: Error -> string): string {
    "Failed to sync '" + DisplayTitle(r) + "': " + describe(e)
  }

  /** The loop's state. It holds the tally and the `create_page` calls made
      so far. It also holds the positions of the recordings those calls were
      for, and of the recordings that failed. */
  datatype Tally = Tally(result: SyncResult, calls: seq<Call>, attempted: seq<nat>, failedAt: seq<nat>)

  const NoTally := Tally(EmptyResult, [], [], [])

  /** The loop body for the k-th recording. The n-th `create_page` call is
      the one made when `n` calls precede it. */
  function Step(t: Tally, recs: seq<Recording>, k: nat, c: Context): Tally
    requires k < |recs|
  {
    var r := recs[k];
    var res := t.result;
    if PocketId(r) in c.existing then
      Tally(res.(skipped := res.skipped + 1), t.calls, t.attempted, t.failedAt)
    else if c.dryRun then
      Tally(res.(created := res.created + 1), t.calls, t.attempted, t.failedAt)
    else match c.page(r)
      case Raised(e) =>
        Tally(res.(failed := res.failed + 1, errors := res.errors + [FailureMessage(r, e, c.describe)]),
              t.calls, t.attempted, t.failedAt + [k])
      case Ok(payload) =>
        match c.create(|t.calls|, payload)
        case Some(e) =>
          Tally(res.(failed := res.failed + 1, errors := res.errors + [FailureMessage(r, e, c.describe)]),
                t.calls + [Create(payload)], t.attempted + [k], t.failedAt + [k])
        case None =>
          Tally(res.(created := res.created + 1), t.calls + [Create(payload)], t.attempted + [k], t.failedAt)
  }

  /** The state after the first `n` recordings. */
  function Loop(recs: seq<Recording>, n: nat, c: Context): Tally
    requires n <= |recs|
  {
    if n == 0 then NoTally else Step(Loop(recs, n - 1, c), recs, n - 1, c)
  }

  /** The number of the first `n` recordings whose key Notion already holds. */
  function Known(recs: seq<Recording>, n: nat, existing: set<string>): (count: nat)
    requires n <= |recs|
    ensures count <= n
  {
    if n == 0 then 0 else Known(recs, n - 1, existing) + (if PocketId(recs[n - 1]) in existing then 1 else 0)
  }

  /** Every recording is counted once as created, skipped or failed. The
      skipped ones are exactly those whose key Notion holds. Each failure
      adds one error, and nothing is ever pending. */
  predicate Balanced(recs: seq<Recording>, n: nat, c: Context, t: Tally)
    requires n <= |recs|
  {
    var res := t.result;
    res.created + res.skipped + res.failed == n && res.pending == 0
    && res.skipped == Known(recs, n, c.existing)
    && |res.errors| == res.failed == |t.failedAt|
  }

  lemma BalancedStep(recs: seq<Recording>, n: nat, c: Context, t: Tally)
    requires n < |recs| && Balanced(recs, n, c, t)
    ensures Balanced(recs, n + 1, c, Step(t, recs, n, c))
  {
    var r := recs[n];
    assert Known(recs, n + 1, c.existing) == Known(recs, n, c.existing) + (if PocketId(r) in c.existing then 1 else 0);
    if PocketId(r) !in c.existing && !c.dryRun {
      match c.page(r)
      case Raised(e) =>
      case Ok(payload) =>
        match c.create(|t.calls|, payload)
        case Some(e) =>
        case None =>
    }
  }

  lemma {:induction false} LoopBalanced(recs: seq<Recording>, n: nat, c: Context)
    requires n <= |recs|
    ensures Balanced(recs, n, c, Loop(recs, n, c))
  {
    if n > 0 {
      LoopBalanced(recs, n - 1, c);
      LoopBalancedStep(recs, n, c);
    }
  }

  lemma LoopBalancedStep(recs: seq<Recording>, n: nat, c: Context)
    requires 0 < n <= |recs| && Balanced(recs, n - 1, c, Loop(recs, n - 1, c))
    ensures Balanced(recs, n, c, Loop(recs, n, c))
  {
    var t := Loop(recs, n - 1, c);
    BalancedStep(recs, n - 1, c, t);
    assert Loop(recs, n, c) == Step(t, recs, n - 1, c);
  }

  /** A dry run makes no call, fails nothing, and counts as created every
      recording it does not skip. */
  lemma {:induction false} DryLoop(recs: seq<Recording>, n: nat, c: Context)
    requires n <= |recs| && c.dryRun
    ensures Loop(recs, n, c).calls == [] && Loop(recs, n, c).result.failed == 0
    ensures Loop(recs, n, c).result.created == n - Known(recs, n, c.existing)
  {
    if n > 0 {
      DryLoop(recs, n - 1, c);
    }
  }

  /** A recording the loop sends to `create_page`: Notion does not hold its
      key, the run is not dry, and its page body could be built. */
  predicate Wanted(recs: seq<Recording>, c: Context, i: nat) {
    i < |recs| && PocketId(recs[i]) !in c.existing && !c.dryRun && c.page(recs[i]).Ok?
  }

  predicate Increasing(s: seq<nat>) {
    forall i, j :: 0 <= i < j < |s| ==> s[i] < s[j]
  }

  /** The calls so far are one `create_page` per wanted recording among the
      first `n`, in fetch order, each with that recording's page. */
  predicate CallsMatch(recs: seq<Recording>, n: nat, c: Context, t: Tally) {
    |t.calls| == |t.attempted| && Increasing(t.attempted)
    && (forall j :: 0 <= j < |t.attempted| ==> t.attempted[j] < n)
    && (forall j :: 0 <= j < |t.attempted| ==>
          Wanted(recs, c, t.attempted[j]) && t.calls[j] == Create(c.page(recs[t.attempted[j]]).value))
    && (forall i :: 0 <= i < n && Wanted(recs, c, i) ==> i in t.attempted)
  }

  lemma CallsMatchStep(recs: seq<Recording>, n: nat, c: Context, t: Tally)
    requires 0 < n <= |recs| && CallsMatch(recs, n - 1, c, t)
    ensures CallsMatch(recs, n, c, Step(t, recs, n - 1, c))
  {
    StepCalls(t, recs, n - 1, c);
    if Wanted(recs, c, n - 1) {
      CallsMatchGrow(recs, n, c, t, Step(t, recs, n - 1, c));
    } else {
      CallsMatchWiden(recs, n, c, t, Step(t, recs, n - 1, c));
    }
  }

  /** The loop body adds one `create_page` call, for a wanted recording,
      and otherwise none. */
  lemma StepCalls(t: Tally, recs: seq<Recording>, k: nat, c: Context)
    requires k < |recs|
    ensures Wanted(recs, c, k) ==>
              Step(t, recs, k, c).calls == t.calls + [Create(c.page(recs[k]).value)]
              && Step(t, recs, k, c).attempted == t.attempted + [k]
    ensures !Wanted(recs, c, k) ==>
              Step(t, recs, k, c).calls == t.calls && Step(t, recs, k, c).attempted == t.attempted
  {
  }

  /** A recording the loop does not send leaves the calls as they were. */
  lemma CallsMatchWiden(recs: seq<Recording>, n: nat, c: Context, t: Tally, t': Tally)
    requires 0 < n <= |recs| && CallsMatch(recs, n - 1, c, t) && !Wanted(recs, c, n - 1)
    requires t'.calls == t.calls && t'.attempted == t.attempted
    ensures CallsMatch(recs, n, c, t')
  {
  }

  /** A recording the loop sends adds its `create_page` call. */
  lemma CallsMatchGrow(recs: seq<Recording>, n: nat, c: Context, t: Tally, t': Tally)
    requires 0 < n <= |recs| && CallsMatch(recs, n - 1, c, t) && Wanted(recs, c, n - 1)
    requires t'.calls == t.calls + [Create(c.page(recs[n - 1]).value)] && t'.attempted == t.attempted + [n - 1]
    ensures CallsMatch(recs, n, c, t')
  {
    CoverGrow(recs, n, c, t.attempted, t'.attempted);
  }

  /** Appending the n-th position keeps every wanted position covered. */
  lemma CoverGrow(recs: seq<Recording>, n: nat, c: Context, attempted: seq<nat>, attempted': seq<nat>)
    requires 0 < n <= |recs| && attempted' == attempted + [n - 1]
    requires forall i :: 0 <= i < n - 1 && Wanted(recs, c, i) ==> i in attempted
    ensures forall i :: 0 <= i < n && Wanted(recs, c, i) ==> i in attempted'
  {
    forall i | 0 <= i < n && Wanted(recs, c, i)
      ensures i in attempted'
    {
      if i < n - 1 {
        assert i in attempted;
      } else {
        assert attempted'[|attempted|] == i;
      }
    }
  }

  lemma {:induction false} LoopCalls(recs: seq<Recording>, n: nat, c: Context)
    requires n <= |recs|
    ensures CallsMatch(recs, n, c, Loop(recs, n, c))
  {
    if n > 0 {
      LoopCalls(recs, n - 1, c);
      LoopCallsStep(recs, n, c);
    }
  }

  lemma LoopCallsStep(recs: seq<Recording>, n: nat, c: Context)
    requires 0 < n <= |recs| && CallsMatch(recs, n - 1, c, Loop(recs, n - 1, c))
    ensures CallsMatch(recs, n, c, Loop(recs, n, c))
  {
    var t := Loop(recs, n - 1, c);
    CallsMatchStep(recs, n, c, t);
    assert Loop(recs, n, c) == Step(t, recs, n - 1, c);
  }

  /** A recording that can fail: Notion does not hold its key and the run is
      not dry. */
  predicate MayFail(recs: seq<Recording>, c: Context, i: nat) {
    i < |recs| && PocketId(recs[i]) !in c.existing && !c.dryRun
  }

  /** Each error names the title of a failed recording, and the failures are
      listed in fetch order. */
  predicate ErrorsMatch(recs: seq<Recording>, n: nat, c: Context, t: Tally) {
    |t.result.errors| == |t.failedAt| && Increasing(t.failedAt)
    && (forall j :: 0 <= j < |t.failedAt| ==>
          t.failedAt[j] < n && MayFail(recs, c, t.failedAt[j])
          && StartsWith(t.result.errors[j], "Failed to sync '" + DisplayTitle(recs[t.failedAt[j]]) + "': "))
  }

  lemma FailurePrefix(r: Recording, e: Error, describe: Error -> string)
    ensures StartsWith(FailureMessage(r, e, describe), "Failed to sync '" + DisplayTitle(r) + "': ")
  {
    var p := "Failed to sync '" + DisplayTitle(r) + "': ";
    assert FailureMessage(r, e, describe) == p + describe(e);
    assert (p + describe(e))[..|p|] == p;
  }

  lemma ErrorsMatchStep(recs: seq<Recording>, n: nat, c: Context, t: Tally)
    requires 0 < n <= |recs| && ErrorsMatch(recs, n - 1, c, t)
    ensures ErrorsMatch(recs, n, c, Step(t, recs, n - 1, c))
  {
    var r := recs[n - 1];
    var next := Step(t, recs, n - 1, c);
    if PocketId(r) !in c.existing && !c.dryRun {
      match c.page(r)
      case Raised(e) =>
        FailurePrefix(r, e, c.describe);
        ErrorsMatchFail(recs, n, c, t, FailureMessage(r, e, c.describe));
      case Ok(payload) =>
        match c.create(|t.calls|, payload)
        case Some(e) =>
          FailurePrefix(r, e, c.describe);
          ErrorsMatchFail(recs, n, c, t, FailureMessage(r, e, c.describe));
        case None =>
          ErrorsMatchWiden(recs, n, c, t, next);
    } else {
      ErrorsMatchWiden(recs, n, c, t, next);
    }
  }

  lemma ErrorsMatchFail(recs: seq<Recording>, n: nat, c: Context, t: Tally, message: string)
    requires 0 < n <= |recs| && ErrorsMatch(recs, n - 1, c, t) && MayFail(recs, c, n - 1)
    requires StartsWith(message, "Failed to sync '" + DisplayTitle(recs[n - 1]) + "': ")
    ensures ErrorsMatch(recs, n, c, t.(result := t.result.(errors := t.result.errors + [message]), failedAt := t.failedAt + [n - 1]))
  {
  }

  /** A step that records no failure keeps the errors matched. */
  lemma ErrorsMatchWiden(recs: seq<Recording>, n: nat, c: Context, t: Tally, next: Tally)
    requires 0 < n <= |recs| && ErrorsMatch(recs, n - 1, c, t)
    requires next.result.errors == t.result.errors && next.failedAt == t.failedAt
    ensures ErrorsMatch(recs, n, c, next)
  {
  }

  lemma {:induction false} LoopErrors(recs: seq<Recording>, n: nat, c: Context)
    requires n <= |recs|
    ensures ErrorsMatch(recs, n, c, Loop(recs, n, c))
  {
    if n > 0 {
      LoopErrors(recs, n - 1, c);
      LoopErrorsStep(recs, n, c);
    }
  }

  lemma LoopErrorsStep(recs: seq<Recording>, n: nat, c: Context)
    requires 0 < n <= |recs| && ErrorsMatch(recs, n - 1, c, Loop(recs, n - 1, c))
    ensures ErrorsMatch(recs, n, c, Loop(recs, n, c))
  {
    var t := Loop(recs, n - 1, c);
    ErrorsMatchStep(recs, n, c, t);
    assert Loop(recs, n, c) == Step(t, recs, n - 1, c);
  }

  // ---------------------------------------------------------------------
  // The pass
  // ---------------------------------------------------------------------

  /** The result of a pass, the service calls it made, and whether it
      advanced the watermark. */
  datatype Run = Run(result: SyncResult, calls: seq<Call>, stamped: bool)

  function Only(error: string): SyncResult {
    EmptyResult.(errors := [error])
  }

  /** `SyncEngine.sync(dry_run)` on a configuration holding `v`, whose
      watermark parses to `since` (that is, `since == Since(v)`). */
  function SyncRun(v: ConfigValue, since: Option<int>, s: Services, dryRun: bool): (run: Run)
    ensures run.calls == [] <==> !IsConfiguredValue(v)
    ensures IsConfiguredValue(v) ==> run.calls[0] == Fetch(since)
    ensures !IsConfiguredValue(v) ==> run.result == Only(NotConfiguredError) && !run.stamped
    ensures run.stamped ==> !dryRun
  {
    if !IsConfiguredValue(v) then Run(Only(NotConfiguredError), [], false)
    else
      var fetch := Fetch(since);
      match s.fetch(since)
      case Raised(e) => Run(Only(FetchFailedPrefix + s.describe(e)), [fetch], false)
      case Ok(recs) =>
        if recs == [] then Run(EmptyResult, [fetch], false)
        else
          var check := Check(v.databaseId.value, PocketIds(recs), PocketIdProperty(v));
          match s.check(check.databaseId, check.ids, check.property)
          case Raised(e) => Run(Only(CheckFailedPrefix + s.describe(e)), [fetch, check], false)
          case Ok(existing) =>
            var t := Loop(recs, |recs|, LoopContext(existing, dryRun, v.databaseId.value, v.propertyMap, s));
            Run(t.result, [fetch, check] + t.calls, !dryRun && (t.result.created > 0 || t.result.skipped > 0))
  }

  /** A fetch that raises ends the pass with one error: no check, no page,
      no watermark. */
  lemma FetchFailure(v: ConfigValue, since: Option<int>, s: Services, dryRun: bool, e: Error)
    requires IsConfiguredValue(v) && s.fetch(since) == Raised(e)
    ensures SyncRun(v, since, s, dryRun) == Run(Only(FetchFailedPrefix + s.describe(e)), [Fetch(since)], false)
  {
  }

  /** An empty fetch leaves every count at zero and never checks. */
  lemma EmptyFetch(v: ConfigValue, since: Option<int>, s: Services, dryRun: bool)
    requires IsConfiguredValue(v) && s.fetch(since) == Ok([])
    ensures SyncRun(v, since, s, dryRun) == Run(EmptyResult, [Fetch(since)], false)
  {
  }

  /** A check that raises ends the pass with one error and no page. */
  lemma CheckFailure(v: ConfigValue, since: Option<int>, s: Services, dryRun: bool, recs: seq<Recording>, e: Error)
    requires IsConfiguredValue(v) && s.fetch(since) == Ok(recs) && recs != []
    requires s.check(v.databaseId.value, PocketIds(recs), PocketIdProperty(v)) == Raised(e)
    ensures SyncRun(v, since, s, dryRun).result == Only(CheckFailedPrefix + s.describe(e))
    ensures SyncRun(v, since, s, dryRun).calls == [Fetch(since), Check(v.databaseId.value, PocketIds(recs), PocketIdProperty(v))]
    ensures !SyncRun(v, since, s, dryRun).stamped
  {
  }

  /** What a pass that reaches the loop does. After the fetch and the
      check, its calls are one `create_page` per recording that Notion does
      not hold and whose body can be built, in fetch order. A dry run makes
      none. Every recording is counted once, each failure names its title,
      and the watermark advances iff the run is not dry and some recording
      was created or skipped. */
  lemma {:induction false} SyncLoop(v: ConfigValue, since: Option<int>, s: Services, dryRun: bool, recs: seq<Recording>, existing: set<string>)
    requires IsConfiguredValue(v) && s.fetch(since) == Ok(recs) && recs != []
    requires s.check(v.databaseId.value, PocketIds(recs), PocketIdProperty(v)) == Ok(existing)
    ensures var c := LoopContext(existing, dryRun, v.databaseId.value, v.propertyMap, s);
            var t := Loop(recs, |recs|, c);
            var run := SyncRun(v, since, s, dryRun);
            && run.calls == [Fetch(since), Check(v.databaseId.value, PocketIds(recs), PocketIdProperty(v))] + t.calls
            && run.result == t.result
            && Balanced(recs, |recs|, c, t) && CallsMatch(recs, |recs|, c, t) && ErrorsMatch(recs, |recs|, c, t)
            && (dryRun ==> t.calls == [] && t.result.failed == 0)
            && (run.stamped <==> !dryRun && t.result.created + t.result.skipped > 0)
  {
    var c := LoopContext(existing, dryRun, v.databaseId.value, v.propertyMap, s);
    LoopBalanced(recs, |recs|, c);
    LoopCalls(recs, |recs|, c);
    LoopErrors(recs, |recs|, c);
    if dryRun {
      DryLoop(recs, |recs|, c);
    }
  }

  // ---------------------------------------------------------------------
  // The watermark clock
  // ---------------------------------------------------------------------

  /** The moment a pass ends, as naive ISO date-times: the UTC wall clock
      and the local wall clock. */
  datatype WallClock = WallClock(utc: string, local: string)

  /** Both readings are well formed, and the local one is `offset` seconds
      ahead of UTC. */
  predicate ClockAt(clock: WallClock, offset: int) {
    Pocket.NaiveStamp(clock.utc) && Pocket.NoZ(clock.utc)
    && Pocket.NaiveStamp(clock.local) && Pocket.NoZ(clock.local)
    && Pocket.ParseIso(clock.local).Some? && Pocket.ParseIso(clock.utc).Some?
    && Pocket.ParseIso(clock.local).value == Pocket.ParseIso(clock.utc).value + offset
  }

  /** The instant a pass ends. */
  function Instant(clock: WallClock): int
    requires Pocket.NaiveStamp(clock.utc)
  {
    Pocket.ParseIso(clock.utc).value
  }

  /** `datetime.now().isoformat()`: local wall-clock time with no offset. */
  function LocalStamp(clock: WallClock): string {
    clock.local
  }

  /** `datetime.now(timezone.utc).isoformat()`: UTC time marked "+00:00". */
  function UtcStamp(clock: WallClock): string {
    clock.utc + "+00:00"
  }

  /** A list entry with an id, created at the instant the stamp denotes. */
  function EntryAt(stamp: string): Json {
    JObj([("id", JStr("r")), ("createdAt", JStr(stamp))])
  }

  /** The local wall clock, read as UTC, is `offset` seconds ahead. */
  lemma LocalInstant(clock: WallClock, offset: int)
    requires ClockAt(clock, offset)
    ensures Pocket.ParseIso(clock.local) == Some(Instant(clock) + offset)
  {
    var r := Pocket.ParseIso(clock.local);
    assert r.Some? && r.value == Instant(clock) + offset;
    assert r == Some(r.value);
  }

  /** The watermark a configuration holds is its stored stamp, parsed. */
  lemma WatermarkRead(v: ConfigValue, stamp: string)
    requires v.lastSync == Some(stamp)
    ensures Since(v) == Pocket.ParseDatetime(Some(stamp))
  {
  }

  /** A naive stamp, alone or marked "Z", reads as the instant its digits
      name in UTC. */
  lemma NaiveReadsAsUtc(b: string)
    requires Pocket.NaiveStamp(b) && Pocket.NoZ(b)
    ensures Pocket.ParseIso(b).Some?
    ensures Pocket.ParseDatetime(Some(b)) == Pocket.ParseIso(b) == Pocket.ParseDatetime(Some(b + "Z"))
    ensures Pocket.ParseDatetime(Some(b + "+00:00")) == Pocket.ParseIso(b)
  {
    Pocket.NaiveMeansUtc(b);
    Pocket.NaiveIsPlusZero(b);
  }

  /** The entry built by `EntryAt` has an id and is dated by its stamp. */
  lemma EntryDated(stamp: string)
    requires stamp != ""
    ensures EntryAt(stamp).JObj? && Truthy(GetNull(EntryAt(stamp), "id"))
    ensures Pocket.CreatedAt(EntryAt(stamp)) == Pocket.ParseDatetime(Some(stamp))
  {
    var e := EntryAt(stamp);
    assert Lookup(e.fields, "createdAt") == Some(JStr(stamp));
    assert e.fields[..1] == [("id", JStr("r"))];
    assert Lookup(e.fields, "id") == Some(JStr("r"));
    assert !HasKey(e.fields, "created_at");
  }

  /** As written, the watermark is the local wall clock read back as UTC:
      `offset` seconds after the instant the pass ended. Every recording
      created in that window is at or before the watermark, so the next
      fetch drops it although no pass has seen it. */
  lemma LocalWatermarkDropsWindow(v: ConfigValue, clock: WallClock, offset: int, e: Json)
    requires ClockAt(clock, offset) && offset > 0
    requires v.lastSync == Some(LocalStamp(clock))
    requires e.JObj? && Pocket.CreatedAt(e).Some?
    requires Instant(clock) < Pocket.CreatedAt(e).value <= Instant(clock) + offset
    ensures Since(v) == Some(Instant(clock) + offset)
    ensures !Pocket.Eligible(e, Since(v))
  {
    WatermarkRead(v, clock.local);
    NaiveReadsAsUtc(clock.local);
    LocalInstant(clock, offset);
    assert Pocket.NotAfter(e, Since(v));
  }

  /** The window is not empty: a recording dated at the local wall-clock
      reading, marked "Z" as the API writes it, lies `offset` seconds after
      the pass ended and is dropped. */
  lemma LocalWatermarkDropsLaterRecording(clock: WallClock, offset: int)
    requires ClockAt(clock, offset) && offset > 0
    ensures Pocket.CreatedAt(EntryAt(clock.local + "Z")) == Some(Instant(clock) + offset)
    ensures !Pocket.Eligible(EntryAt(clock.local + "Z"), Since(Defaults.(lastSync := Some(LocalStamp(clock)))))
  {
    NaiveReadsAsUtc(clock.local);
    LocalInstant(clock, offset);
    EntryDated(clock.local + "Z");
    LocalWatermarkDropsWindow(Defaults.(lastSync := Some(LocalStamp(clock))), clock, offset, EntryAt(clock.local + "Z"));
  }

  lemma UtcExample(u: string)
    requires u == "2026-02-14T08:30:00"
    ensures Pocket.ParseIso(u) == Some(1771065000 - 7200) && Pocket.NaiveStamp(u) && Pocket.NoZ(u)
  {
    assert u[..10] == "2026-02-14";
    assert u[11..19] == "08:30:00";
    assert u[19..] == [];
    Pocket.DateExample();
    MorningClock();
    Pocket.ExampleDay();
    MorningNoZ(u);
  }

  lemma MorningNoZ(u: string)
    requires u == "2026-02-14T08:30:00"
    ensures Pocket.NoZ(u)
  {
  }

  lemma MorningClock()
    ensures Pocket.ParseClock("08:30:00") == Some(Pocket.Clock(8, 30, 0))
  {
    var cs := "08:30:00";
    assert cs[..2] == "08" && cs[3..5] == "30" && cs[6..] == "00";
    Pocket.TwoDigits("08");
    Pocket.TwoDigits("30");
    Pocket.TwoDigits("00");
  }

  /** The premise above is met: two hours east of Greenwich at
      08:30 UTC on 14 February 2026. */
  lemma TwoHoursEast()
    ensures ClockAt(WallClock("2026-02-14T08:30:00", "2026-02-14T10:30:00"), 7200)
  {
    UtcExample("2026-02-14T08:30:00");
    LocalExample("2026-02-14T10:30:00");
  }

  lemma LocalExample(u: string)
    requires u == "2026-02-14T10:30:00"
    ensures Pocket.ParseIso(u) == Some(1771065000) && Pocket.NaiveStamp(u) && Pocket.NoZ(u)
  {
    Pocket.IsoExample(u);
    LocalNoZ(u);
  }

  lemma LocalNoZ(u: string)
    requires u == "2026-02-14T10:30:00"
    ensures Pocket.NoZ(u)
  {
  }

  /** With a UTC watermark, the watermark is the instant the pass ended, and
      every recording with an id created after it passes the next fetch's
      filter. */
  lemma UtcWatermarkKeepsLaterRecordings(v: ConfigValue, clock: WallClock, e: Json)
    requires Pocket.NaiveStamp(clock.utc) && Pocket.NoZ(clock.utc)
    requires v.lastSync == Some(UtcStamp(clock))
    requires e.JObj? && Truthy(GetNull(e, "id"))
    requires Pocket.CreatedAt(e).Some? && Pocket.CreatedAt(e).value > Instant(clock)
    ensures Since(v) == Some(Instant(clock))
    ensures Pocket.Eligible(e, Since(v))
  {
    WatermarkRead(v, clock.utc + "+00:00");
    NaiveReadsAsUtc(clock.utc);
  }

  // ---------------------------------------------------------------------
  // The imperative pass
  // ---------------------------------------------------------------------

  /** The configuration after a pass: the watermark stamped with `stamp`
      when the pass advances it, unchanged otherwise. */
  predicate StampedAs(before: ConfigValue, after: ConfigValue, stamp: string) {
    after.lastSync == Some(stamp)
    && after.databaseId == before.databaseId && after.databaseName == before.databaseName
    && after.propertyMap == before.propertyMap && after.createdAt.Some?
    && (before.createdAt.Some? && before.createdAt.value != "" ==> after.createdAt == before.createdAt)
  }

  /** The loop over the fetched recordings: skip the keys Notion holds, and
      create (or on a dry run only count) the others. A recording whose page
      cannot be built or whose `create_page` raises is counted as failed,
      and the loop goes on. The context carries the page builder and the
      service calls. */
  method SyncRecordings(recordings: seq<Recording>, c: Context)
    returns (result: SyncResult, creates: seq<Call>)
    ensures var t := Loop(recordings, |recordings|, c);
            result == t.result && creates == t.calls
  {
    result := EmptyResult;
    creates := [];
    ghost var attempted: seq<nat> := [];
    ghost var failedAt: seq<nat> := [];
    var k: nat := 0;
    while k < |recordings|
      invariant k <= |recordings|
      invariant Loop(recordings, k, c) == Tally(result, creates, attempted, failedAt)
    {
      result, creates, attempted, failedAt := SyncRecording(recordings, k, c, result, creates, attempted, failedAt);
      LoopNext(recordings, k, c);
      k := k + 1;
    }
  }

  lemma LoopNext(recs: seq<Recording>, k: nat, c: Context)
    requires k < |recs|
    ensures Loop(recs, k + 1, c) == Step(Loop(recs, k, c), recs, k, c)
  {
  }

  /** One pass of the loop, for the k-th recording. */
  method SyncRecording(recordings: seq<Recording>, k: nat, c: Context,
                       result: SyncResult, creates: seq<Call>, ghost attempted: seq<nat>, ghost failedAt: seq<nat>)
    returns (result': SyncResult, creates': seq<Call>, ghost attempted': seq<nat>, ghost failedAt': seq<nat>)
    requires k < |recordings|
    ensures Tally(result', creates', attempted', failedAt')
            == Step(Tally(result, creates, attempted, failedAt), recordings, k, c)
  {
    result', creates', attempted', failedAt' := result, creates, attempted, failedAt;
    ghost var t := Tally(result, creates, attempted, failedAt);
    var recording := recordings[k];
    if PocketId(recording) in c.existing {
      result' := result.(skipped := result.skipped + 1);
      StepSkips(t, recordings, k, c);
      return;
    }
    if c.dryRun {
      result' := result.(created := result.created + 1);
      StepCounts(t, recordings, k, c);
      return;
    }
    var page := c.page(recording);
    if page.Raised? {
      result' := result.(failed := result.failed + 1,
                         errors := result.errors + [FailureMessage(recording, page.error, c.describe)]);
      failedAt' := failedAt + [k];
      StepPageFails(t, recordings, k, c);
      return;
    }
    var raised := c.create(|creates|, page.value);
    creates' := creates + [Create(page.value)];
    attempted' := attempted + [k];
    StepCreates(t, recordings, k, c);
    if raised.Some? {
      result' := result.(failed := result.failed + 1,
                         errors := result.errors + [FailureMessage(recording, raised.value, c.describe)]);
      failedAt' := failedAt + [k];
    } else {
      result' := result.(created := result.created + 1);
    }
  }

  lemma StepSkips(t: Tally, recs: seq<Recording>, k: nat, c: Context)
    requires k < |recs| && PocketId(recs[k]) in c.existing
    ensures Step(t, recs, k, c) == t.(result := t.result.(skipped := t.result.skipped + 1))
  {
  }

  lemma StepCounts(t: Tally, recs: seq<Recording>, k: nat, c: Context)
    requires k < |recs| && PocketId(recs[k]) !in c.existing && c.dryRun
    ensures Step(t, recs, k, c) == t.(result := t.result.(created := t.result.created + 1))
  {
  }

  lemma StepPageFails(t: Tally, recs: seq<Recording>, k: nat, c: Context)
    requires k < |recs| && PocketId(recs[k]) !in c.existing && !c.dryRun && c.page(recs[k]).Raised?
    ensures Step(t, recs, k, c)
            == t.(result := t.result.(failed := t.result.failed + 1,
                                      errors := t.result.errors + [FailureMessage(recs[k], c.page(recs[k]).error, c.describe)]),
                  failedAt := t.failedAt + [k])
  {
  }

  lemma StepCreates(t: Tally, recs: seq<Recording>, k: nat, c: Context)
    requires k < |recs| && PocketId(recs[k]) !in c.existing && !c.dryRun && c.page(recs[k]).Ok?
    ensures var payload := c.page(recs[k]).value;
            var raised := c.create(|t.calls|, payload);
            var res := t.result;
            Step(t, recs, k, c)
            == Tally(if raised.Some?
                     then res.(failed := res.failed + 1, errors := res.errors + [FailureMessage(recs[k], raised.value, c.describe)])
                     else res.(created := res.created + 1),
                     t.calls + [Create(payload)], t.attempted + [k],
                     if raised.Some? then t.failedAt + [k] else t.failedAt)
  {
  }

  /** The properties, body and icon of a new page, in the order the pass
      builds them. */
  method BuildPage(recording: Recording, databaseId: string, propertyMap: PropertyMap, s: Services)
    returns (page: Outcome<Notion.PagePayload>)
    ensures page == PageFor(databaseId, propertyMap, s)(recording)
  {
    var properties := ToNotionProperties(recording, propertyMap);
    var children: Outcome<seq<Block>>;
    if DistinctIds(recording.mindMap) {
      var body := ToNotionChildren(recording, s.dueFormat, s.capturedFormat);
      children := Ok(body);
    } else {
      children := s.unbounded(recording);
    }
    if children.Raised? {
      return Raised(children.error);
    }
    var icon := GetIcon(recording);
    page := Ok(Notion.CreatePagePayload(databaseId, properties, children.value, Some(icon)));
  }

  /** The pass up to the watermark update, on the configuration `v`. */
  method Pass(v: ConfigValue, s: Services, dryRun: bool) returns (run: Run)
    ensures run == SyncRun(v, Since(v), s, dryRun)
  {
    if !IsConfiguredValue(v) {
      return Run(EmptyResult.(errors := [NotConfiguredError]), [], false);
    }
    var databaseId := v.databaseId.value;
    var pocketIdProp := NameFor(v.propertyMap, "pocket_id", DefaultPocketIdProperty);
    var lastSync := Pocket.ParseDatetime(v.lastSync);

    var fetched := s.fetch(lastSync);
    if fetched.Raised? {
      return Run(EmptyResult.(errors := [FetchFailedPrefix + s.describe(fetched.error)]), [Fetch(lastSync)], false);
    }
    var recordings := fetched.value;
    if recordings == [] {
      return Run(EmptyResult, [Fetch(lastSync)], false);
    }

    var pocketIds := PocketIds(recordings);
    var checked := s.check(databaseId, pocketIds, pocketIdProp);
    var calls := [Fetch(lastSync), Check(databaseId, pocketIds, pocketIdProp)];
    if checked.Raised? {
      return Run(EmptyResult.(errors := [CheckFailedPrefix + s.describe(checked.error)]), calls, false);
    }

    var result, creates := SyncRecordings(recordings, LoopContext(checked.value, dryRun, databaseId, v.propertyMap, s));
    run := Run(result, calls + creates, !dryRun && (result.created > 0 || result.skipped > 0));
  }

  /** What a pass leaves behind: the result and calls of `SyncRun` on the
      configuration before it, and the watermark `stamp` saved when the
      pass advances it. Otherwise the configuration and its file are as
      they were. */
  predicate Synced(before: ConfigValue, after: ConfigValue, fileBefore: FileState, fileAfter: FileState,
                   s: Services, dryRun: bool, stamp: string, result: SyncResult, calls: seq<Call>)
  {
    var run := SyncRun(before, Since(before), s, dryRun);
    result == run.result && calls == run.calls
    && (run.stamped ==> StampedAs(before, after, stamp) && LoadFrom(fileAfter) == Loaded(after))
    && (!run.stamped ==> after == before && fileAfter == fileBefore)
  }

  /** After a pass that advanced the watermark as written, the next fetch
      drops every recording created in the `offset` seconds after the pass
      ended. */
  lemma SyncedDropsWindow(before: ConfigValue, after: ConfigValue, fileBefore: FileState, fileAfter: FileState,
                          s: Services, dryRun: bool, result: SyncResult, calls: seq<Call>,
                          clock: WallClock, offset: int, e: Json)
    requires Synced(before, after, fileBefore, fileAfter, s, dryRun, LocalStamp(clock), result, calls)
    requires SyncRun(before, Since(before), s, dryRun).stamped
    requires ClockAt(clock, offset) && offset > 0
    requires e.JObj? && Pocket.CreatedAt(e).Some?
    requires Instant(clock) < Pocket.CreatedAt(e).value <= Instant(clock) + offset
    ensures !Pocket.Eligible(e, Since(after))
  {
    LocalWatermarkDropsWindow(after, clock, offset, e);
  }

  /** After a pass that advanced the corrected watermark, the next fetch
      keeps every recording with an id created after the pass ended. */
  lemma SyncedCorrectedKeepsLater(before: ConfigValue, after: ConfigValue, fileBefore: FileState, fileAfter: FileState,
                                  s: Services, dryRun: bool, result: SyncResult, calls: seq<Call>,
                                  clock: WallClock, e: Json)
    requires Synced(before, after, fileBefore, fileAfter, s, dryRun, UtcStamp(clock), result, calls)
    requires SyncRun(before, Since(before), s, dryRun).stamped
    requires Pocket.NaiveStamp(clock.utc) && Pocket.NoZ(clock.utc)
    requires e.JObj? && Truthy(GetNull(e, "id"))
    requires Pocket.CreatedAt(e).Some? && Pocket.CreatedAt(e).value > Instant(clock)
    ensures Pocket.Eligible(e, Since(after))
  {
    UtcWatermarkKeepsLaterRecordings(after, clock, e);
  }

  /** `SyncEngine.sync(dry_run)`, ending at `clock`. As written, the
      watermark is `datetime.now().isoformat()`: the local wall clock, with
      no offset. */
  method Sync(config: Config, file: ConfigFile, s: Services, dryRun: bool, clock: WallClock)
    returns (result: SyncResult, calls: seq<Call>)
    modifies config, file
    ensures Synced(old(config.Value()), config.Value(), old(file.state), file.state, s, dryRun,
                   LocalStamp(clock), result, calls)
  {
    result, calls := SyncStamping(config, file, s, dryRun, LocalStamp(clock));
  }

  /** The pass with the watermark taken in UTC and marked as such, so that
      reading it back yields the instant the pass ended. */
  method SyncCorrected(config: Config, file: ConfigFile, s: Services, dryRun: bool, clock: WallClock)
    returns (result: SyncResult, calls: seq<Call>)
    modifies config, file
    ensures Synced(old(config.Value()), config.Value(), old(file.state), file.state, s, dryRun,
                   UtcStamp(clock), result, calls)
  {
    result, calls := SyncStamping(config, file, s, dryRun, UtcStamp(clock));
  }

  /** The pass, then `update_last_sync()` with `stamp` when it advances. */
  method SyncStamping(config: Config, file: ConfigFile, s: Services, dryRun: bool, stamp: string)
    returns (result: SyncResult, calls: seq<Call>)
    modifies config, file
    ensures Synced(old(config.Value()), config.Value(), old(file.state), file.state, s, dryRun,
                   stamp, result, calls)
  {
    var run := Pass(config.Value(), s, dryRun);
    result, calls := run.result, run.calls;
    if run.stamped {
      config.UpdateLastSync(file, stamp);
    }
  }

  // ---------------------------------------------------------------------
  // `get_pending_count`
  // ---------------------------------------------------------------------

  /** `SyncEngine.get_pending_count()` on a configuration holding `v`, whose
      watermark parses to `since`. It is the number of fetched recordings
      minus the number of keys Notion holds. All of them count if the check
      raises. It is 0 when unconfigured, when the fetch raises and when
      nothing is fetched. */
  function PendingCount(v: ConfigValue, since: Option<int>, s: Services): (n: int)
    ensures !IsConfiguredValue(v) || s.fetch(since).Raised? ==> n == 0
    ensures IsConfiguredValue(v) && s.fetch(since) == Ok([]) ==> n == 0
    ensures IsConfiguredValue(v) && s.fetch(since).Ok? ==> n <= |s.fetch(since).value|
    ensures IsConfiguredValue(v) && s.fetch(since).Ok? && s.fetch(since).value != [] ==>
              var recs := s.fetch(since).value;
              var checked := s.check(v.databaseId.value, PocketIds(recs), PocketIdProperty(v));
              (checked.Raised? ==> n == |recs|) && (checked.Ok? ==> n == |recs| - |checked.value|)
  {
    if !IsConfiguredValue(v) then 0
    else match s.fetch(since)
      case Raised(_) => 0
      case Ok(recs) =>
        if recs == [] then 0
        else match s.check(v.databaseId.value, PocketIds(recs), PocketIdProperty(v))
          case Raised(_) => |recs|
          case Ok(existing) => |recs| - |existing|
  }

  /** The keys of the first `n` recordings. */
  function KeySet(recs: seq<Recording>, n: nat): set<string>
    requires n <= |recs|
  {
    if n == 0 then {} else KeySet(recs, n - 1) + {PocketId(recs[n - 1])}
  }

  predicate DistinctRecordings(recs: seq<Recording>) {
    forall i, j :: 0 <= i < j < |recs| ==> recs[i].id != recs[j].id
  }

  /** A key outside the first `n` recordings' keys is not among them. */
  lemma {:induction false} NotInKeySet(recs: seq<Recording>, n: nat, r: Recording)
    requires n <= |recs| && forall i :: 0 <= i < n ==> recs[i].id != r.id
    ensures PocketId(r) !in KeySet(recs, n)
  {
    if n > 0 {
      NotInKeySet(recs, n - 1, r);
      PocketIdInjective(recs[n - 1], r);
    }
  }

  lemma OverlapGrows(existing: set<string>, keys: set<string>, key: string)
    requires key !in keys
    ensures |existing * (keys + {key})| == |existing * keys| + (if key in existing then 1 else 0)
  {
    if key in existing {
      assert existing * (keys + {key}) == existing * keys + {key};
    } else {
      assert existing * (keys + {key}) == existing * keys;
    }
  }

  /** With distinct recordings, the skipped count is the number of their
      keys Notion holds. */
  lemma {:induction false} KnownIsOverlap(recs: seq<Recording>, n: nat, existing: set<string>)
    requires n <= |recs| && DistinctRecordings(recs)
    ensures Known(recs, n, existing) == |existing * KeySet(recs, n)|
  {
    if n == 0 {
      assert existing * KeySet(recs, 0) == {};
    } else {
      KnownIsOverlap(recs, n - 1, existing);
      NotInKeySet(recs, n - 1, recs[n - 1]);
      var key := PocketId(recs[n - 1]);
      OverlapGrows(existing, KeySet(recs, n - 1), key);
    }
  }

  /** A dry run over distinct recordings counts as created every recording
      whose key Notion does not hold, when Notion holds only their keys. */
  lemma DryCreatedIsOverlap(recs: seq<Recording>, c: Context)
    requires c.dryRun && DistinctRecordings(recs) && c.existing <= KeySet(recs, |recs|)
    ensures Loop(recs, |recs|, c).result.created == |recs| - |c.existing|
  {
    DryLoop(recs, |recs|, c);
    KnownIsOverlap(recs, |recs|, c.existing);
    OverlapOfSubset(c.existing, KeySet(recs, |recs|));
  }

  lemma OverlapOfSubset(a: set<string>, b: set<string>)
    requires a <= b
    ensures a * b == a
  {
  }

  /** A pass that reaches the loop reports the loop's counts. */
  lemma RunResult(v: ConfigValue, since: Option<int>, s: Services, dryRun: bool, recs: seq<Recording>, existing: set<string>)
    requires IsConfiguredValue(v) && s.fetch(since) == Ok(recs) && recs != []
    requires s.check(v.databaseId.value, PocketIds(recs), PocketIdProperty(v)) == Ok(existing)
    ensures SyncRun(v, since, s, dryRun).result == Loop(recs, |recs|, LoopContext(existing, dryRun, v.databaseId.value, v.propertyMap, s)).result
  {
  }

  /** When the recordings are distinct and Notion answers with some of their
      keys, the pending count is what a dry-run loop over that answer counts
      as created; by `RunResult`, that is the count `sync(dry_run=True)`
      reports, whose loop context `LoopContext(existing, true, ..)` is such
      a `c`. */
  lemma PendingIsDryRunCreated(v: ConfigValue, since: Option<int>, s: Services, recs: seq<Recording>, c: Context)
    requires IsConfiguredValue(v) && s.fetch(since) == Ok(recs) && recs != [] && DistinctRecordings(recs)
    requires s.check(v.databaseId.value, PocketIds(recs), PocketIdProperty(v)) == Ok(c.existing)
    requires c.dryRun && c.existing <= KeySet(recs, |recs|)
    ensures PendingCount(v, since, s) == Loop(recs, |recs|, c).result.created
    ensures PendingCount(v, since, s) <= |recs|
  {
    DryCreatedIsOverlap(recs, c);
    OverlapBound(recs, c.existing);
  }

  /** Notion can hold no more of the keys than there are recordings. */
  lemma OverlapBound(recs: seq<Recording>, existing: set<string>)
    requires existing <= KeySet(recs, |recs|)
    ensures |existing| <= |recs|
  {
    KeySetSize(recs, |recs|);
    SubsetSize(existing, KeySet(recs, |recs|));
  }

  lemma {:induction false} KeySetSize(recs: seq<Recording>, n: nat)
    requires n <= |recs|
    ensures |KeySet(recs, n)| <= n
  {
    if n > 0 {
      KeySetSize(recs, n - 1);
    }
  }

  lemma SubsetSize(a: set<string>, b: set<string>)
    requires a <= b
    ensures |a| <= |b|
  {
    assert b == a + (b - a);
  }
}
