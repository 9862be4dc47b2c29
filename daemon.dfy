/**
 * The background daemon's decisions: the interval parser, the summary a
 * pass hands back, the consecutive-failure state machine with its retry
 * delay, the state record written after each pass, the chunked wait that
 * watches for shutdown, the clean-up on exit and the single-instance guard.
 *
 * The environment is a parameter: what each pass of the sync returns, the
 * wall clock (one reading per `datetime.now()` call), its ISO rendering,
 * the read of the `running` flag at which the shutdown signal is first seen,
 * the process id and the log file's path.
 */
module Daemon {
  import opened Text
  import opened Json
  import opened Reliability
  import opened Models
  import opened Configuration
  import Blocks
  import Sync

  const DefaultIntervalMinutes := 15
  const RetryDelaySeconds := 60
  const MaxRetries := 2
  /** The wait loop looks at the `running` flag every 10 seconds. */
  const PollSeconds := 10

  // ---------------------------------------------------------------------
  // parse_interval
  // ---------------------------------------------------------------------

  /** `parse_interval(s)` in minutes; None where `int()` raises ValueError.
      Hours are multiplied by 60, minutes and bare numbers taken as they are. */
  function ParseInterval(s: string): (r: Option<int>)
  {
    ParseUnits(Lower(Strip(s)))
  }

  /** Reads a normalised interval text: hours, minutes or a bare number. */
  function ParseUnits(t: string): (r: Option<int>)
  {
    if EndsWith(t, "h") then
      (match ParseInt(t[..|t| - 1]) case None => None case Some(n) => Some(n * 60))
    else if EndsWith(t, "m") then ParseInt(t[..|t| - 1])
    else ParseInt(t)
  }

  /** Digits are left alone by lower-casing. */
  lemma LowerDigits(ds: string)
    requires AllDigits(ds)
    ensures Lower(ds) == ds
  {
    assert forall i :: 0 <= i < |ds| ==> Lower(ds)[i] == ds[i];
  }

  lemma LowerAppend(a: string, b: string)
    ensures Lower(a + b) == Lower(a) + Lower(b)
  {
    assert forall i :: 0 <= i < |a + b| ==> Lower(a + b)[i] == (Lower(a) + Lower(b))[i];
  }

  /** A number with a unit suffix, in either case, reads as that many hours
      or minutes; a bare number is minutes. */
  lemma IntervalUnits(n: nat)
    ensures ParseInterval(NatToString(n) + "h") == Some(n * 60)
    ensures ParseInterval(NatToString(n) + "H") == Some(n * 60)
    ensures ParseInterval(NatToString(n) + "m") == Some(n)
    ensures ParseInterval(NatToString(n) + "M") == Some(n)
    ensures ParseInterval(NatToString(n)) == Some(n)
  {
    var ds := NatToString(n);
    NatToStringValue(n);
    SuffixedInterval(ds, 'h', 'h');
    SuffixedInterval(ds, 'H', 'h');
    SuffixedInterval(ds, 'm', 'm');
    SuffixedInterval(ds, 'M', 'm');
    BareInterval(ds);
  }

  /** Digits and a unit letter. */
  lemma SuffixedInterval(ds: string, unit: char, lower: char)
    requires AllDigits(ds) && |ds| >= 1 && LowerChar(unit) == lower && (lower == 'h' || lower == 'm')
    ensures ParseInterval(ds + [unit]) == Some(if lower == 'h' then DigitsValue(ds) * 60 else DigitsValue(ds))
  {
    var t := Lower(Strip(ds + [unit]));
    SuffixedNumber(ds, unit, lower);
    assert t[..|t| - 1] == ds;
    ParseIntOfDigits(ds);
    assert EndsWith(t, "h") <==> lower == 'h' by {
      assert t[|t| - 1..] == [lower];
    }
  }

  /** Digits alone. */
  lemma BareInterval(ds: string)
    requires AllDigits(ds) && |ds| >= 1
    ensures ParseInterval(ds) == Some(DigitsValue(ds))
  {
    NoUnit(ds);
    StripDigits(ds);
    LowerDigits(ds);
    ParseIntOfDigits(ds);
  }

  /** A string ending in a digit carries no unit. */
  lemma NoUnit(ds: string)
    requires |ds| >= 1 && IsDigit(ds[|ds| - 1])
    ensures !EndsWith(ds, "h") && !EndsWith(ds, "m")
  {
    assert ds[|ds| - 1..] == [ds[|ds| - 1]];
  }

  /** Digits followed by a unit letter: stripping and lower-casing leave the
      digits and the lower-case unit. */
  lemma SuffixedNumber(ds: string, unit: char, lower: char)
    requires AllDigits(ds) && |ds| >= 1 && LowerChar(unit) == lower && (lower == 'h' || lower == 'm')
    ensures Lower(Strip(ds + [unit])) == ds + [lower]
  {
    StripNumberUnit(ds, unit);
    LowerNumberUnit(ds, unit, lower);
  }

  lemma StripNumberUnit(ds: string, unit: char)
    requires AllDigits(ds) && |ds| >= 1 && !IsSpace(unit)
    ensures Strip(ds + [unit]) == ds + [unit]
  {
    var s := ds + [unit];
    assert s[0] == ds[0];
    assert s[|s| - 1] == unit;
    StripUnchanged(s);
  }

  lemma LowerNumberUnit(ds: string, unit: char, lower: char)
    requires AllDigits(ds) && LowerChar(unit) == lower
    ensures Lower(ds + [unit]) == ds + [lower]
  {
    LowerAppend(ds, [unit]);
    LowerDigits(ds);
    assert Lower([unit])[0] == lower;
  }

  /** Surrounding white space and letter case do not matter. */
  lemma IntervalIgnoresCase(s: string)
    ensures ParseInterval(Lower(s)) == ParseInterval(s)
  {
    NormalizedLower(s);
  }

  /** Normalising a lower-cased text gives the same as normalising the text. */
  lemma NormalizedLower(s: string)
    ensures Lower(Strip(Lower(s))) == Lower(Strip(s))
  {
    Blocks.StripLower(s);
    LowerIdempotent(Strip(s));
  }

  lemma LowerIdempotent(s: string)
    ensures Lower(Lower(s)) == Lower(s)
  {
    forall i | 0 <= i < |s|
      ensures Lower(Lower(s))[i] == Lower(s)[i]
    {
      Blocks.LowerCharCase(s[i]);
    }
  }

  /** Blank input is refused. */
  lemma BlankInterval(s: string)
    requires IsBlank(s)
    ensures ParseInterval(s) == None
  {
    StripEmptyIffBlank(s);
    assert Lower(Strip(s)) == [];
    assert IsBlank([]);
  }

  /** A unit without a number is refused. */
  lemma UnitWithoutNumber(unit: char)
    requires unit == 'h' || unit == 'm'
    ensures ParseInterval([unit]) == None
  {
    var t := Lower(Strip([unit]));
    assert t == [unit] by {
      StripUnchanged([unit]);
      assert Lower([unit])[0] == unit;
    }
    assert t[..0] == [];
    assert IsBlank([]);
  }

  // ---------------------------------------------------------------------
  // _do_sync
  // ---------------------------------------------------------------------

  /** The dictionary `_do_sync` returns: an `error` entry, or the counts with
      at most three error messages. */
  datatype Summary =
    | SyncError(message: string)
    | Counts(created: nat, skipped: nat, failed: nat, errors: seq<string>)

  const KeysMissing := "API keys not set"
  const NotConfigured := "Not configured"

  /** `not key` for an environment variable. */
  predicate KeySet(key: Option<string>) {
    key.Some? && key.value != []
  }

  /** `_do_sync()`: None where `Config.load()` raises, which happens outside
      the `try` and so ends the daemon. `engine` is what `SyncEngine.sync()`
      returns or raises on the loaded configuration, `describe` is `str(e)`. */
  function DoSync(pocketKey: Option<string>, notionKey: Option<string>, loaded: LoadResult,
                  engine: ConfigValue -> Outcome<SyncResult>, describe: Error -> string): (r: Option<Summary>)
    ensures r.None? <==> KeySet(pocketKey) && KeySet(notionKey) && loaded.Crashed?
    ensures (r.Some? && r.value.SyncError?)
            <==> (!KeySet(pocketKey) || !KeySet(notionKey)
                  || (loaded.Loaded? && (!IsConfiguredValue(loaded.value) || engine(loaded.value).Raised?)))
    ensures r.Some? && r.value.Counts? ==>
              var res := engine(loaded.value).value;
              r.value.created == res.created && r.value.skipped == res.skipped && r.value.failed == res.failed
              && |r.value.errors| <= 3 && |r.value.errors| <= |res.errors| && r.value.errors == res.errors[..|r.value.errors|]
              && (|res.errors| <= 3 ==> r.value.errors == res.errors)
  {
    if !KeySet(pocketKey) || !KeySet(notionKey) then Some(SyncError(KeysMissing))
    else if loaded.Crashed? then None
    else if !IsConfiguredValue(loaded.value) then Some(SyncError(NotConfigured))
    else match engine(loaded.value)
      case Raised(e) => Some(SyncError(describe(e)))
      case Ok(res) =>
        Some(Counts(res.created, res.skipped, res.failed, if |res.errors| <= 3 then res.errors else res.errors[..3]))
  }

  /** The summary as the dictionary stored under `last_result`. */
  function SummaryJson(s: Summary): (j: Json)
    ensures j.JObj? && (HasKey(j.fields, "error") <==> s.SyncError?)
  {
    match s
    case SyncError(m) =>
      var fields := [("error", JStr(m))];
      assert fields[0].0 == "error";
      JObj(fields)
    case Counts(c, k, f, es) =>
      var fields := [("created", JNum(c)), ("skipped", JNum(k)), ("failed", JNum(f)),
                     ("errors", JArr(seq(|es|, i requires 0 <= i < |es| => JStr(es[i]))))];
      assert forall i :: 0 <= i < |fields| ==> fields[i].0 != "error";
      JObj(fields)
  }

  /** Failures inside the engine (a fetch that raises, say) come back as
      errors in the result, not as exceptions, so the daemon sees a
      successful pass. */
  lemma EngineFailureIsSuccess(pocketKey: Option<string>, notionKey: Option<string>, v: ConfigValue,
                               engine: ConfigValue -> Outcome<SyncResult>, describe: Error -> string,
                               s: Sync.Services, e: Error, failures: nat, interval: int, logFile: string)
    requires KeySet(pocketKey) && KeySet(notionKey) && IsConfiguredValue(v)
    requires engine(v) == Ok(Sync.SyncRun(v, Sync.Since(v), s, false).result)
    requires s.fetch(Sync.Since(v)) == Raised(e)
    ensures DoSync(pocketKey, notionKey, Loaded(v), engine, describe)
            == Some(Counts(0, 0, 0, [Sync.FetchFailedPrefix + s.describe(e)]))
    ensures Decide(failures, Counts(0, 0, 0, [Sync.FetchFailedPrefix + s.describe(e)]), interval, logFile).failures == 0
  {
    Sync.FetchFailure(v, Sync.Since(v), s, false, e);
  }

  // ---------------------------------------------------------------------
  // One pass of the run loop
  // ---------------------------------------------------------------------

  datatype Decision = Decision(failures: nat, waitSeconds: int, notice: Option<(string, string)>)

  const FailedTitle := "Power-Flow Sync Failed"
  const SyncedTitle := "Power-Flow Synced"
  const StartedTitle := "Power-Flow Started"

  function FailedMessage(logFile: string): string {
    "Check logs: " + logFile
  }

  function SyncedMessage(created: nat): string {
    NatToString(created) + " new items added to Notion"
  }

  /** After a failed pass the counter rises by one and the daemon retries
      after a minute while the counter is within `MaxRetries`; beyond that it
      waits the full interval and notifies. After a successful pass the
      counter is reset, the wait is the full interval, and a notification is
      sent only when something was created. */
  function Decide(failures: nat, summary: Summary, interval: int, logFile: string): (d: Decision)
    ensures summary.SyncError? ==> d.failures == failures + 1
    ensures summary.SyncError? && failures + 1 <= MaxRetries ==>
              d.waitSeconds == RetryDelaySeconds && d.notice.None?
    ensures summary.SyncError? && failures + 1 > MaxRetries ==>
              d.waitSeconds == interval * 60 && d.notice == Some((FailedTitle, FailedMessage(logFile)))
    ensures summary.Counts? ==> d.failures == 0 && d.waitSeconds == interval * 60
    ensures summary.Counts? ==> (d.notice.Some? <==> summary.created > 0)
    ensures summary.Counts? && summary.created > 0 ==> d.notice == Some((SyncedTitle, SyncedMessage(summary.created)))
  {
    if summary.SyncError? then
      var n := failures + 1;
      if n <= MaxRetries then Decision(n, RetryDelaySeconds, None)
      else Decision(n, interval * 60, Some((FailedTitle, FailedMessage(logFile))))
    else
      Decision(0, interval * 60, if summary.created > 0 then Some((SyncedTitle, SyncedMessage(summary.created))) else None)
  }

  /** The counter after a run of passes, starting from zero. */
  function Counter(summaries: seq<Summary>, interval: int, logFile: string): nat {
    if summaries == [] then 0
    else Decide(Counter(summaries[..|summaries| - 1], interval, logFile), summaries[|summaries| - 1], interval, logFile).failures
  }

  /** The number of failed passes at the end of `summaries`. */
  function Streak(summaries: seq<Summary>): (n: nat)
    ensures n <= |summaries|
    ensures forall i :: |summaries| - n <= i < |summaries| ==> summaries[i].SyncError?
    ensures n < |summaries| ==> summaries[|summaries| - n - 1].Counts?
  {
    if summaries == [] || summaries[|summaries| - 1].Counts? then 0
    else Streak(summaries[..|summaries| - 1]) + 1
  }

  /** The counter is the length of the current run of failures. */
  lemma {:induction false} CounterIsStreak(summaries: seq<Summary>, interval: int, logFile: string)
    ensures Counter(summaries, interval, logFile) == Streak(summaries)
  {
    if summaries != [] {
      CounterIsStreak(summaries[..|summaries| - 1], interval, logFile);
    }
  }

  /** Hence the waits of a run of failures: a minute for the first
      `MaxRetries`, the full interval (with a notification) after that. */
  lemma RetryThenBackOff(summaries: seq<Summary>, s: Summary, interval: int, logFile: string)
    requires s.SyncError?
    ensures var d := Decide(Counter(summaries, interval, logFile), s, interval, logFile);
            d.failures == Streak(summaries) + 1
            && (Streak(summaries) < MaxRetries ==> d.waitSeconds == RetryDelaySeconds)
            && (Streak(summaries) >= MaxRetries ==> d.notice == Some((FailedTitle, FailedMessage(logFile))))
  {
    CounterIsStreak(summaries, interval, logFile);
  }

  /** The state record after a pass: `last_sync`, `last_result`,
      `consecutive_failures` and `next_sync` set in that order. */
  function Record(fields: seq<(string, Json)>, lastSync: string, result: Summary, failures: nat, nextSync: string)
    : (r: seq<(string, Json)>)
  {
    var a := Set(fields, "last_sync", JStr(lastSync));
    var b := Set(a, "last_result", SummaryJson(result));
    var c := Set(b, "consecutive_failures", JNum(failures));
    Set(c, "next_sync", JStr(nextSync))
  }

  predicate PassKey(k: string) {
    k == "last_sync" || k == "last_result" || k == "consecutive_failures" || k == "next_sync"
  }

  /** The four keys hold the pass's values, every other key is kept. */
  lemma RecordLookups(fields: seq<(string, Json)>, lastSync: string, result: Summary, failures: nat,
                      nextSync: string, other: string)
    ensures var r := Record(fields, lastSync, result, failures, nextSync);
            Lookup(r, "last_sync") == Some(JStr(lastSync))
            && Lookup(r, "last_result") == Some(SummaryJson(result))
            && Lookup(r, "consecutive_failures") == Some(JNum(failures))
            && Lookup(r, "next_sync") == Some(JStr(nextSync))
            && (!PassKey(other) ==> Lookup(r, other) == Lookup(fields, other))
  {
    var a := Set(fields, "last_sync", JStr(lastSync));
    var b := Set(a, "last_result", SummaryJson(result));
    var c := Set(b, "consecutive_failures", JNum(failures));
    LookupSet(fields, "last_sync", JStr(lastSync), other);
    LookupSet(a, "last_result", SummaryJson(result), other);
    LookupSet(b, "consecutive_failures", JNum(failures), other);
    LookupSet(c, "next_sync", JStr(nextSync), other);
    LookupSet(a, "last_result", SummaryJson(result), "last_sync");
    LookupSet(b, "consecutive_failures", JNum(failures), "last_sync");
    LookupSet(c, "next_sync", JStr(nextSync), "last_sync");
    LookupSet(b, "consecutive_failures", JNum(failures), "last_result");
    LookupSet(c, "next_sync", JStr(nextSync), "last_result");
    LookupSet(c, "next_sync", JStr(nextSync), "consecutive_failures");
  }

  // ---------------------------------------------------------------------
  // The wait between passes
  // ---------------------------------------------------------------------

  function Min(a: int, b: int): int {
    if a <= b then a else b
  }

  /** The sleeps of an uninterrupted wait of `wait` seconds, from `waited`. */
  function AllSleeps(wait: int, waited: int): (r: seq<int>)
    ensures forall i :: 0 <= i < |r| ==> 0 < r[i] <= PollSeconds
    decreases wait - waited
  {
    if waited < wait then [Min(PollSeconds, wait - waited)] + AllSleeps(wait, waited + PollSeconds) else []
  }

  function Sum(s: seq<int>): int {
    if s == [] then 0 else s[0] + Sum(s[1..])
  }

  /** An uninterrupted wait sleeps exactly the time still to wait. */
  lemma {:induction false} SleepsAddUp(wait: int, waited: int)
    ensures Sum(AllSleeps(wait, waited)) == (if waited < wait then wait - waited else 0)
    decreases wait - waited
  {
    if waited < wait {
      SleepsAddUp(wait, waited + PollSeconds);
      assert AllSleeps(wait, waited)[1..] == AllSleeps(wait, waited + PollSeconds);
    }
  }

  /** The wait loop from `waited` when `seen` reads of the `running` flag
      have been made, the flag reading false from read number `stopAt` on:
      its sleeps, and the reads made when it ends. The flag is read only
      while there is time left to wait. */
  function WaitFrom(wait: int, waited: int, seen: nat, stopAt: nat): (r: (seq<int>, nat))
    ensures r.1 >= seen
    ensures r.1 > stopAt || r.1 == seen + |r.0|
    decreases wait - waited
  {
    if waited < wait then
      if seen < stopAt then
        var rest := WaitFrom(wait, waited + PollSeconds, seen + 1, stopAt);
        ([Min(PollSeconds, wait - waited)] + rest.0, rest.1)
      else ([], seen + 1)
    else ([], seen)
  }

  /** The sleeps are those of the uninterrupted wait, cut off at the first
      read that sees the flag cleared: none starts once it is. */
  lemma {:induction false} WaitIsPrefix(wait: int, waited: int, seen: nat, stopAt: nat)
    ensures var r := WaitFrom(wait, waited, seen, stopAt);
            var all := AllSleeps(wait, waited);
            |r.0| == (if seen >= stopAt then 0 else Min(|all|, stopAt - seen))
            && r.0 == all[..|r.0|]
            && (r.1 <= stopAt ==> r.0 == all)
    decreases wait - waited
  {
    if waited < wait && seen < stopAt {
      WaitIsPrefix(wait, waited + PollSeconds, seen + 1, stopAt);
    }
  }

  /** Without a shutdown signal the sleeps add up to the whole wait. */
  lemma FullWait(wait: int, seen: nat, stopAt: nat)
    requires seen + |AllSleeps(wait, 0)| <= stopAt
    ensures Sum(WaitFrom(wait, 0, seen, stopAt).0) == (if wait > 0 then wait else 0)
  {
    WaitIsPrefix(wait, 0, seen, stopAt);
    SleepsAddUp(wait, 0);
  }

  // ---------------------------------------------------------------------
  // The run loop
  // ---------------------------------------------------------------------

  /** What the loop needs from outside: what each pass of `_do_sync` returns
      (None where it raises), the wall clock by reading number, its ISO
      rendering, the read of `running` from which the shutdown signal is
      seen, the process id and the log file. */
  datatype Env = Env(
    doSync: nat -> Option<Summary>,
    clock: nat -> int,
    iso: int -> string,
    stopAt: nat,
    pid: int,
    logFile: string)

  datatype Event = Notified(title: string, message: string) | Saved(state: seq<(string, Json)>) | Slept(seconds: int)

  datatype StateFile = NoState | Corrupt | Stored(fields: seq<(string, Json)>)

  /** `load_state()`: the stored dictionary, or an empty one when the file is
      missing or unreadable. */
  function LoadState(f: StateFile): (fields: seq<(string, Json)>)
    ensures f.Stored? ==> fields == f.fields
    ensures !f.Stored? ==> fields == []
  {
    if f.Stored? then f.fields else []
  }

  function StartState(interval: int, env: Env): seq<(string, Json)> {
    [("status", JStr("running")), ("pid", JNum(env.pid)), ("interval_minutes", JNum(interval)),
     ("started_at", JStr(env.iso(env.clock(0)))), ("last_sync", JNull), ("last_result", JNull)]
  }

  /** The state left behind: reading 0 is `started_at`, each pass reads the
      clock twice, so the stop time is reading `1 + 2 * passes`. */
  function StopState(env: Env, passes: nat): seq<(string, Json)> {
    [("status", JStr("stopped")), ("stopped_at", JStr(env.iso(env.clock(1 + 2 * passes))))]
  }

  function SleepEvents(sleeps: seq<int>): (r: seq<Event>)
    ensures |r| == |sleeps| && forall i :: 0 <= i < |r| ==> r[i] == Slept(sleeps[i])
  {
    if sleeps == [] then [] else [Slept(sleeps[0])] + SleepEvents(sleeps[1..])
  }

  function NoticeEvents(d: Decision): seq<Event> {
    if d.notice.Some? then [Notified(d.notice.value.0, d.notice.value.1)] else []
  }

  /** The rest of the run from the loop head, where read number `seen` of
      `running` is made: its events and the number of passes run in all. */
  function RunFrom(interval: int, env: Env, pass: nat, failures: nat, seen: nat, fields: seq<(string, Json)>)
    : (r: (seq<Event>, nat))
    ensures r.1 >= pass
    decreases if seen < env.stopAt then env.stopAt - seen else 0, 1
  {
    if seen >= env.stopAt then ([], pass)
    else match env.doSync(pass)
      case None => ([], pass)
      case Some(s) => PassThen(interval, env, pass, failures, seen, fields, s)
  }

  /** A pass whose sync returned `s`, then the rest of the run. */
  function PassThen(interval: int, env: Env, pass: nat, failures: nat, seen: nat, fields: seq<(string, Json)>, s: Summary)
    : (r: (seq<Event>, nat))
    requires seen < env.stopAt
    ensures r.1 > pass
    decreases env.stopAt - seen, 0
  {
    var d := Decide(failures, s, interval, env.logFile);
    var fields' := Record(fields, env.iso(env.clock(1 + 2 * pass)), s, d.failures,
                          env.iso(env.clock(2 + 2 * pass) + d.waitSeconds));
    var w := WaitFrom(d.waitSeconds, 0, seen + 1, env.stopAt);
    var rest := RunFrom(interval, env, pass + 1, d.failures, w.1, fields');
    (NoticeEvents(d) + [Saved(fields')] + SleepEvents(w.0) + rest.0, rest.1)
  }

  /** The whole run: start-up, the passes, and the number of passes. */
  function RunSpec(interval: int, env: Env): (r: (seq<Event>, nat)) {
    var start := StartState(interval, env);
    var rest := RunFrom(interval, env, 0, 0, 0, start);
    ([Saved(start), Notified(StartedTitle, StartedMessage(interval))] + rest.0, rest.1)
  }

  /** Whether the rest of the run from the loop head ends because a pass
      raised, rather than because the shutdown signal was seen. */
  function EscapesFrom(interval: int, env: Env, pass: nat, failures: nat, seen: nat, fields: seq<(string, Json)>): bool
    decreases if seen < env.stopAt then env.stopAt - seen else 0, 1
  {
    if seen >= env.stopAt then false
    else match env.doSync(pass)
      case None => true
      case Some(s) => EscapesAfter(interval, env, pass, failures, seen, fields, s)
  }

  /** Whether the run escapes after a pass whose sync returned `s`. */
  function EscapesAfter(interval: int, env: Env, pass: nat, failures: nat, seen: nat, fields: seq<(string, Json)>, s: Summary): bool
    requires seen < env.stopAt
    decreases env.stopAt - seen, 0
  {
    var d := Decide(failures, s, interval, env.logFile);
    var fields' := Record(fields, env.iso(env.clock(1 + 2 * pass)), s, d.failures,
                          env.iso(env.clock(2 + 2 * pass) + d.waitSeconds));
    var w := WaitFrom(d.waitSeconds, 0, seen + 1, env.stopAt);
    EscapesFrom(interval, env, pass + 1, d.failures, w.1, fields')
  }

  /** Whether the whole run ends with an exception escaping `run()`. */
  function RunEscapes(interval: int, env: Env): bool {
    EscapesFrom(interval, env, 0, 0, 0, StartState(interval, env))
  }

  /** A run that escapes does so at the pass after the last one it
      completed: that pass's sync raised. */
  lemma {:induction false} EscapeIsLastPass(interval: int, env: Env, pass: nat, failures: nat, seen: nat, fields: seq<(string, Json)>)
    requires EscapesFrom(interval, env, pass, failures, seen, fields)
    ensures env.doSync(RunFrom(interval, env, pass, failures, seen, fields).1).None?
    decreases if seen < env.stopAt then env.stopAt - seen else 0
  {
    if env.doSync(pass).Some? {
      var s := env.doSync(pass).value;
      var d := Decide(failures, s, interval, env.logFile);
      var fields' := Record(fields, env.iso(env.clock(1 + 2 * pass)), s, d.failures,
                            env.iso(env.clock(2 + 2 * pass) + d.waitSeconds));
      var w := WaitFrom(d.waitSeconds, 0, seen + 1, env.stopAt);
      EscapeIsLastPass(interval, env, pass + 1, d.failures, w.1, fields');
    }
  }

  /** A run none of whose syncs raises never escapes: it ends only on the
      shutdown signal. */
  lemma {:induction false} NoRaiseNoEscape(interval: int, env: Env, pass: nat, failures: nat, seen: nat, fields: seq<(string, Json)>)
    requires forall p: nat :: p >= pass ==> env.doSync(p).Some?
    ensures !EscapesFrom(interval, env, pass, failures, seen, fields)
    decreases if seen < env.stopAt then env.stopAt - seen else 0
  {
    if seen < env.stopAt {
      var s := env.doSync(pass).value;
      var d := Decide(failures, s, interval, env.logFile);
      var fields' := Record(fields, env.iso(env.clock(1 + 2 * pass)), s, d.failures,
                            env.iso(env.clock(2 + 2 * pass) + d.waitSeconds));
      var w := WaitFrom(d.waitSeconds, 0, seen + 1, env.stopAt);
      NoRaiseNoEscape(interval, env, pass + 1, d.failures, w.1, fields');
    }
  }

  function StartedMessage(interval: int): string {
    "Syncing every " + IntToString(interval) + " minutes"
  }

  /** Once the shutdown signal is seen the loop makes no further pass, and a
      run whose first read already sees it makes none at all. */
  lemma StoppedRunsNoPass(interval: int, env: Env, pass: nat, failures: nat, seen: nat, fields: seq<(string, Json)>)
    requires seen >= env.stopAt
    ensures RunFrom(interval, env, pass, failures, seen, fields) == ([], pass)
  {
  }

  /** A pass whose sync raises ends the run: no state is saved for it. */
  lemma EscapeEndsRun(interval: int, env: Env, pass: nat, failures: nat, seen: nat, fields: seq<(string, Json)>)
    requires seen < env.stopAt && env.doSync(pass).None?
    ensures RunFrom(interval, env, pass, failures, seen, fields) == ([], pass)
  {
  }

  /** The run starts with the start state saved and the start notification. */
  lemma RunSpecStart(interval: int, env: Env)
    ensures var rest := RunFrom(interval, env, 0, 0, 0, StartState(interval, env));
            RunSpec(interval, env)
            == ([Saved(StartState(interval, env)), Notified(StartedTitle, StartedMessage(interval))] + rest.0, rest.1)
  {
  }

  /** One pass unfolded: the run from a pass that syncs is the pass's
      notice, its saved state and its sleeps, then the run from the next
      pass. */
  lemma RunUnfold(interval: int, env: Env, pass: nat, failures: nat, seen: nat, fields: seq<(string, Json)>)
    requires seen < env.stopAt && env.doSync(pass).Some?
    ensures var s := env.doSync(pass).value;
            var d := Decide(failures, s, interval, env.logFile);
            var fields' := Record(fields, env.iso(env.clock(1 + 2 * pass)), s, d.failures,
                              env.iso(env.clock(2 + 2 * pass) + d.waitSeconds));
            var w := WaitFrom(d.waitSeconds, 0, seen + 1, env.stopAt);
            var rest := RunFrom(interval, env, pass + 1, d.failures, w.1, fields');
            RunFrom(interval, env, pass, failures, seen, fields)
            == (NoticeEvents(d) + [Saved(fields')] + SleepEvents(w.0) + rest.0, rest.1)
  {
    assert RunFrom(interval, env, pass, failures, seen, fields)
           == PassThen(interval, env, pass, failures, seen, fields, env.doSync(pass).value);
  }

  /** `RunUnfold` for the values a pass has computed. */
  lemma RunStep(interval: int, env: Env, pass: nat, failures: nat, seen: nat, fields: seq<(string, Json)>,
                 d: Decision, fields': seq<(string, Json)>, sleeps: seq<int>, seen': nat)
    requires seen < env.stopAt && env.doSync(pass).Some?
    requires d == Decide(failures, env.doSync(pass).value, interval, env.logFile)
    requires fields' == Record(fields, env.iso(env.clock(1 + 2 * pass)), env.doSync(pass).value, d.failures,
                               env.iso(env.clock(2 + 2 * pass) + d.waitSeconds))
    requires sleeps == WaitFrom(d.waitSeconds, 0, seen + 1, env.stopAt).0
    requires seen' == WaitFrom(d.waitSeconds, 0, seen + 1, env.stopAt).1
    ensures var rest := RunFrom(interval, env, pass + 1, d.failures, seen', fields');
            RunFrom(interval, env, pass, failures, seen, fields)
            == (NoticeEvents(d) + [Saved(fields')] + SleepEvents(sleeps) + rest.0, rest.1)
  {
    RunUnfold(interval, env, pass, failures, seen, fields);
  }

  /** The escape outcome unfolds over one pass as the events do. */
  lemma EscapeStep(interval: int, env: Env, pass: nat, failures: nat, seen: nat, fields: seq<(string, Json)>,
                   d: Decision, fields': seq<(string, Json)>, seen': nat)
    requires seen < env.stopAt && env.doSync(pass).Some?
    requires d == Decide(failures, env.doSync(pass).value, interval, env.logFile)
    requires fields' == Record(fields, env.iso(env.clock(1 + 2 * pass)), env.doSync(pass).value, d.failures,
                               env.iso(env.clock(2 + 2 * pass) + d.waitSeconds))
    requires seen' == WaitFrom(d.waitSeconds, 0, seen + 1, env.stopAt).1
    ensures EscapesFrom(interval, env, pass, failures, seen, fields) == EscapesFrom(interval, env, pass + 1, d.failures, seen', fields')
  {
    assert EscapesFrom(interval, env, pass, failures, seen, fields)
           == EscapesAfter(interval, env, pass, failures, seen, fields, env.doSync(pass).value);
  }

  /** The state and PID files. */
  class DaemonFiles {
    var pid: Option<string>
    var state: StateFile

    constructor(pid: Option<string>, state: StateFile)
      ensures this.pid == pid && this.state == state
    {
      this.pid := pid;
      this.state := state;
    }
  }

  /** `PowerFlowDaemon`: the interval and the `running` flag the signal
      handler clears. */
  class PowerFlowDaemon {
    const intervalMinutes: int
    var running: bool

    constructor(intervalMinutes: int)
      ensures this.intervalMinutes == intervalMinutes && !running
    {
      this.intervalMinutes := intervalMinutes;
      running := false;
    }

    /** A read of `running`: the signal handler has cleared it once the
        read number reaches `env.stopAt`. */
    method Observe(env: Env, seen: nat)
      modifies this
      ensures running == (old(running) && seen < env.stopAt)
    {
      if seen >= env.stopAt {
        running := false;
      }
    }

    /** The wait loop: sleep at most `PollSeconds` at a time while there is
        time left and `running` is set. */
    method Wait(env: Env, waitSeconds: int, seen: nat) returns (sleeps: seq<int>, seen': nat)
      requires running && seen <= env.stopAt
      modifies this
      ensures (sleeps, seen') == WaitFrom(waitSeconds, 0, seen, env.stopAt)
      ensures running == (seen' <= env.stopAt)
    {
      var waited := 0;
      sleeps, seen' := [], seen;
      assert sleeps + WaitFrom(waitSeconds, waited, seen', env.stopAt).0 == WaitFrom(waitSeconds, waited, seen', env.stopAt).0;
      while true
        invariant running && seen' <= env.stopAt
        invariant WaitFrom(waitSeconds, 0, seen, env.stopAt)
                  == (sleeps + WaitFrom(waitSeconds, waited, seen', env.stopAt).0,
                      WaitFrom(waitSeconds, waited, seen', env.stopAt).1)
        decreases waitSeconds - waited
      {
        ghost var rest := WaitFrom(waitSeconds, waited, seen', env.stopAt);
        if waited >= waitSeconds {
          assert rest == ([], seen');
          assert sleeps + rest.0 == sleeps;
          return;
        }
        Observe(env, seen');
        seen' := seen' + 1;
        if !running {
          assert rest == ([], seen');
          assert sleeps + rest.0 == sleeps;
          return;
        }
        var chunk := Min(PollSeconds, waitSeconds - waited);
        ghost var next := WaitFrom(waitSeconds, waited + PollSeconds, seen', env.stopAt);
        assert rest == ([chunk] + next.0, next.1);
        assert sleeps + rest.0 == (sleeps + [chunk]) + next.0;
        sleeps := sleeps + [chunk];
        waited := waited + PollSeconds;
      }
    }

    /** One pass of the loop, from the sync to the end of the wait. */
    method RunPass(files: DaemonFiles, env: Env, pass: nat, failures: nat, seen: nat)
      returns (events: seq<Event>, failures': nat, seen': nat)
      requires seen < env.stopAt && env.doSync(pass).Some? && files.state.Stored? && running
      modifies this, files
      ensures files.state.Stored? && files.pid == old(files.pid)
      ensures running == (seen' <= env.stopAt) && seen' > seen
      ensures var rest := RunFrom(intervalMinutes, env, pass + 1, failures', seen', files.state.fields);
              RunFrom(intervalMinutes, env, pass, failures, seen, old(files.state.fields)) == (events + rest.0, rest.1)
      ensures EscapesFrom(intervalMinutes, env, pass, failures, seen, old(files.state.fields))
              == EscapesFrom(intervalMinutes, env, pass + 1, failures', seen', files.state.fields)
    {
      var s := env.doSync(pass).value;
      var d := Decide(failures, s, intervalMinutes, env.logFile);
      events := [];
      if d.notice.Some? {
        events := [Notified(d.notice.value.0, d.notice.value.1)];
      }
      var loaded := LoadState(files.state);
      var fields := Record(loaded, env.iso(env.clock(1 + 2 * pass)), s, d.failures,
                           env.iso(env.clock(2 + 2 * pass) + d.waitSeconds));
      files.state := Stored(fields);
      events := events + [Saved(fields)];
      var sleeps;
      sleeps, seen' := Wait(env, d.waitSeconds, seen + 1);
      events := events + SleepEvents(sleeps);
      failures' := d.failures;
      assert loaded == old(files.state.fields);
      RunStep(intervalMinutes, env, pass, failures, seen, loaded, d, fields, sleeps, seen');
      EscapeStep(intervalMinutes, env, pass, failures, seen, loaded, d, fields, seen');
      ghost var rest := RunFrom(intervalMinutes, env, pass + 1, failures', seen', fields);
      AppendAssoc(NoticeEvents(d) + [Saved(fields)], SleepEvents(sleeps), rest.0);
    }

    /** `run()`: write the PID file and the start state, notify, then pass
        after pass until the shutdown signal is seen or a pass raises; on
        the way out remove the PID file and leave the stopped state.
        `escaped` says that a pass raised, which `run()` re-raises once
        its `finally` has cleaned up. */
    method Run(files: DaemonFiles, env: Env) returns (events: seq<Event>, passes: nat, escaped: bool)
      modifies this, files
      ensures (events, passes) == RunSpec(intervalMinutes, env)
      ensures escaped <==> RunEscapes(intervalMinutes, env)
      ensures files.pid == None
      ensures files.state == Stored(StopState(env, passes))
    {
      files.pid := Some(IntToString(env.pid));
      running := true;
      var start := StartState(intervalMinutes, env);
      files.state := Stored(start);
      var more;
      more, passes, escaped := Passes(files, env, start);
      events := [Saved(start), Notified(StartedTitle, StartedMessage(intervalMinutes))] + more;
      RunSpecStart(intervalMinutes, env);
      files.pid := None;
      files.state := Stored(StopState(env, passes));
    }

    /** The loop of `run()`, from the first read of `running` on, once the
        start state is saved. */
    method Passes(files: DaemonFiles, env: Env, start: seq<(string, Json)>) returns (events: seq<Event>, passes: nat, escaped: bool)
      requires running && files.state == Stored(start)
      modifies this, files
      ensures (events, passes) == RunFrom(intervalMinutes, env, 0, 0, 0, start)
      ensures escaped <==> EscapesFrom(intervalMinutes, env, 0, 0, 0, start)
      ensures files.pid == old(files.pid)
    {
      events := [];
      escaped := false;
      var failures := 0;
      var seen := 0;
      passes := 0;
      Observe(env, seen);
      ghost var spec := RunFrom(intervalMinutes, env, 0, 0, 0, start);
      ghost var fields := start;
      ghost var r := spec;
      assert events + r.0 == r.0;
      while running
        invariant running == (seen < env.stopAt)
        invariant files.state == Stored(fields) && files.pid == old(files.pid)
        invariant r == RunFrom(intervalMinutes, env, passes, failures, seen, fields)
        invariant spec == (events + r.0, r.1)
        invariant !escaped
        invariant EscapesFrom(intervalMinutes, env, 0, 0, 0, start) == EscapesFrom(intervalMinutes, env, passes, failures, seen, fields)
        decreases if seen < env.stopAt then env.stopAt - seen else 0
      {
        if env.doSync(passes).None? {
          EscapeEndsRun(intervalMinutes, env, passes, failures, seen, fields);
          escaped := true;
          break;
        }
        var more, failures', seen' := RunPass(files, env, passes, failures, seen);
        fields := files.state.fields;
        ghost var rest := RunFrom(intervalMinutes, env, passes + 1, failures', seen', fields);
        assert spec == ((events + more) + rest.0, rest.1) by {
          assert r == (more + rest.0, rest.1);
          AppendAssoc(events, more, rest.0);
        }
        events := events + more;
        failures, seen, passes := failures', seen', passes + 1;
        r := rest;
        Observe(env, seen);
      }
      if !running {
        StoppedRunsNoPass(intervalMinutes, env, passes, failures, seen, fields);
      }
      assert r.0 == [];
      assert events + [] == events;
    }
  }

  // ---------------------------------------------------------------------
  // is_running / start_daemon
  // ---------------------------------------------------------------------

  /** What `os.kill(pid, 0)` finds. */
  datatype Probe = Alive | NoSuchProcess | NoPermission

  /** An instance is alive: the PID file holds a number whose process
      answers the probe. */
  predicate AliveInstance(content: Option<string>, probe: int -> Probe) {
    content.Some? && ParseInt(Strip(content.value)).Some? && probe(ParseInt(Strip(content.value)).value) == Alive
  }

  /** `is_running()`: a PID file whose number does not parse, whose process
      is gone or cannot be signalled is stale and removed. */
  method IsRunning(files: DaemonFiles, probe: int -> Probe) returns (running: bool, pid: Option<int>)
    modifies files
    ensures running <==> AliveInstance(old(files.pid), probe)
    ensures running ==> pid == ParseInt(Strip(old(files.pid).value)) && files.pid == old(files.pid)
    ensures !running ==> pid.None? && files.pid.None?
    ensures files.state == old(files.state)
  {
    if files.pid.None? {
      return false, None;
    }
    var n := ParseInt(Strip(files.pid.value));
    if n.None? || probe(n.value) != Alive {
      files.pid := None;
      return false, None;
    }
    return true, n;
  }

  /** `start_daemon()`: exit code 1 while another instance is alive. In the
      foreground the daemon runs to its end and the code is 0, or there is
      no code because a pass raised and `run()` re-raised it. In the
      background the code is 1 when the fork fails and 0 otherwise; the
      forked child's own run is not part of this model. */
  method StartDaemon(files: DaemonFiles, probe: int -> Probe, interval: int, env: Env, foreground: bool, forkFails: bool)
    returns (code: Option<int>, events: seq<Event>, passes: nat)
    modifies files
    ensures AliveInstance(old(files.pid), probe) ==>
              code == Some(1) && events == [] && files.pid == old(files.pid) && files.state == old(files.state)
    ensures !AliveInstance(old(files.pid), probe) && foreground ==>
              (events, passes) == RunSpec(interval, env)
              && code == (if RunEscapes(interval, env) then None else Some(0))
              && files.pid.None? && files.state == Stored(StopState(env, passes))
    ensures !AliveInstance(old(files.pid), probe) && !foreground ==>
              code == Some(if forkFails then 1 else 0) && events == []
              && files.pid.None? && files.state == old(files.state)
  {
    events, passes := [], 0;
    var running, _ := IsRunning(files, probe);
    if running {
      return Some(1), events, passes;
    }
    if foreground {
      var daemon := new PowerFlowDaemon(interval);
      var escaped;
      events, passes, escaped := daemon.Run(files, env);
      code := if escaped then None else Some(0);
      return;
    }
    code := Some(if forkFails then 1 else 0);
  }
}
