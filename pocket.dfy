/**
 * Pocket record handling: timestamp parsing, the mapping of a raw recording
 * document to a `Recording`, and the incremental fetch loop. Timestamps are
 * whole seconds since 1970-01-01T00:00:00Z. The two Pocket endpoints the
 * fetch uses are parameters: the list reply, and a function from a
 * recording id to the detail reply or the exception the request raised.
 */
module Pocket {
  import opened Text
  import opened Json
  import opened Reliability
  import opened Blocks
  import opened MindMap
  import opened Models

  const PocketWebUrl := "https://heypocket.com"

  // ---------------------------------------------------------------------
  // Timestamps (the date-time of section 5.6 of RFC 3339, offset optional)
  // ---------------------------------------------------------------------

  predicate IsLeap(y: int) {
    y % 4 == 0 && (y % 100 != 0 || y % 400 == 0)
  }

  function DaysInMonth(y: int, m: int): (r: int)
    requires 1 <= m <= 12
    ensures 28 <= r <= 31
  {
    if m == 2 then (if IsLeap(y) then 29 else 28)
    else if m == 4 || m == 6 || m == 9 || m == 11 then 30
    else 31
  }

  /** Days of the year before the first of month `m`. */
  function DaysBeforeMonth(y: int, m: int): (r: int)
    requires 1 <= m <= 12
  {
    [0, 31, 59, 90, 120, 151, 181, 212, 243, 273, 304, 334][m - 1]
    + (if m > 2 && IsLeap(y) then 1 else 0)
  }

  /** Days of the proleptic Gregorian calendar before January 1 of year `y`. */
  function DaysBeforeYear(y: int): int
    requires y >= 1
  {
    (y - 1) * 365 + (y - 1) / 4 - (y - 1) / 100 + (y - 1) / 400
  }

  /** The proleptic Gregorian ordinal, 1 for 0001-01-01 (`date.toordinal`). */
  function Ordinal(y: int, m: int, d: int): int
    requires y >= 1 && 1 <= m <= 12
  {
    DaysBeforeYear(y) + DaysBeforeMonth(y, m) + d
  }

  /** `date(1970, 1, 1).toordinal()` */
  const EpochOrdinal := 719163

  datatype Date = Date(year: int, month: int, day: int)
  datatype Clock = Clock(hour: int, minute: int, second: int)

  predicate ValidDate(d: Date) {
    1 <= d.year <= 9999 && 1 <= d.month <= 12 && 1 <= d.day <= DaysInMonth(d.year, d.month)
  }

  predicate ValidClock(c: Clock) {
    0 <= c.hour <= 23 && 0 <= c.minute <= 59 && 0 <= c.second <= 59
  }

  /** The instant a UTC wall-clock reading names. */
  function UtcSeconds(d: Date, c: Clock): int
    requires ValidDate(d)
  {
    (Ordinal(d.year, d.month, d.day) - EpochOrdinal) * 86400 + c.hour * 3600 + c.minute * 60 + c.second
  }

  /** Fixed-width digits. */
  function Digits(s: string): Option<nat> {
    if |s| > 0 && AllDigits(s) then Some(DigitsValue(s)) else None
  }

  /** `YYYY-MM-DD` */
  function ParseDate(s: string): (r: Option<Date>)
    requires |s| == 10
    ensures r.Some? ==> ValidDate(r.value)
  {
    var y := Digits(s[..4]);
    var m := Digits(s[5..7]);
    var d := Digits(s[8..]);
    if s[4] != '-' || s[7] != '-' || y.None? || m.None? || d.None? then None
    else if !(1 <= y.value <= 9999 && 1 <= m.value <= 12) then None
    else if !(1 <= d.value <= DaysInMonth(y.value, m.value)) then None
    else Some(Date(y.value, m.value, d.value))
  }

  /** `HH:MM:SS` */
  function ParseClock(s: string): (r: Option<Clock>)
    requires |s| == 8
    ensures r.Some? ==> ValidClock(r.value)
  {
    var h := Digits(s[..2]);
    var m := Digits(s[3..5]);
    var sec := Digits(s[6..]);
    if s[2] != ':' || s[5] != ':' || h.None? || m.None? || sec.None? then None
    else if !(h.value <= 23 && m.value <= 59 && sec.value <= 59) then None
    else Some(Clock(h.value, m.value, sec.value))
  }

  /** The number of leading digits. */
  function DigitRun(s: string): (n: nat)
    ensures n <= |s| && AllDigits(s[..n]) && (n < |s| ==> !IsDigit(s[n]))
  {
    if s == [] || !IsDigit(s[0]) then 0
    else
      var n := 1 + DigitRun(s[1..]);
      assert s[..n] == [s[0]] + s[1..][..n - 1];
      n
  }

  /** The length of a leading `.digits` fraction (0 when there is none). */
  function FractionLength(t: string): (n: nat)
    ensures n <= |t|
  {
    if t != [] && t[0] == '.' then 1 + DigitRun(t[1..]) else 0
  }

  /** A UTC offset `+HH:MM` or `-HH:MM` in seconds east of UTC; the empty
      offset of a naive time counts as UTC. */
  function ParseOffset(o: string): (r: Option<int>)
    ensures o == [] ==> r == Some(0)
    ensures r.Some? ==> -86400 < r.value < 86400
  {
    if o == [] then Some(0)
    else if |o| != 6 || (o[0] != '+' && o[0] != '-') || o[3] != ':' then None
    else
      var h := Digits(o[1..3]);
      var m := Digits(o[4..]);
      if h.None? || m.None? || h.value > 23 || m.value > 59 then None
      else Some((if o[0] == '-' then -1 else 1) * (h.value * 3600 + m.value * 60))
  }

  /** Everything after the seconds: an optional fraction (dropped, timestamps
      are whole seconds) and an optional offset. */
  function ParseTail(t: string): (r: Option<int>) {
    var f := FractionLength(t);
    if f == 1 then None else ParseOffset(t[f..])
  }

  /** `datetime.fromisoformat` followed by "naive means UTC": the instant, or
      None where Python raises `ValueError`. Any character may separate the
      date from the time. */
  function ParseIso(s: string): (r: Option<int>)
    ensures |s| < 19 ==> r.None?
  {
    if |s| < 19 then None
    else
      var d := ParseDate(s[..10]);
      var c := ParseClock(s[11..19]);
      var off := ParseTail(s[19..]);
      if d.None? || c.None? || off.None? then None
      else Some(UtcSeconds(d.value, c.value) - off.value)
  }

  /** `s.replace("Z", "+00:00")` */
  function ReplaceZ(s: string): (r: string) {
    if s == [] then []
    else ReplaceZ(s[..|s| - 1]) + (if s[|s| - 1] == 'Z' then "+00:00" else [s[|s| - 1]])
  }

  predicate NoZ(s: string) {
    forall i :: 0 <= i < |s| ==> s[i] != 'Z'
  }

  /** `parse_datetime`: None for a missing or empty value and wherever
      parsing fails. */
  function ParseDatetime(s: Option<string>): (r: Option<int>)
    ensures s.None? || s == Some("") ==> r.None?
  {
    if s.None? || s.value == "" then None else ParseIso(ReplaceZ(s.value))
  }

  /** `parse_datetime` on a decoded value: a falsy value is None, and a
      non-string has no `replace` (the `AttributeError` is caught). */
  function ParseDatetimeJson(j: Json): (r: Option<int>)
    ensures !j.JStr? ==> r.None?
    ensures j.JStr? ==> r == ParseDatetime(Some(j.s))
  {
    if !Truthy(j) || !j.JStr? then None else ParseIso(ReplaceZ(j.s))
  }

  lemma {:induction false} ReplaceZAppend(a: string, b: string)
    ensures ReplaceZ(a + b) == ReplaceZ(a) + ReplaceZ(b)
    decreases |b|
  {
    if b == [] {
      assert a + b == a;
    } else {
      var ab := a + b;
      assert ab[..|ab| - 1] == a + b[..|b| - 1];
      ReplaceZAppend(a, b[..|b| - 1]);
    }
  }

  lemma {:induction false} ReplaceZNoZ(s: string)
    requires NoZ(s)
    ensures ReplaceZ(s) == s
  {
    if s != [] {
      ReplaceZNoZ(s[..|s| - 1]);
    }
  }

  /** A trailing "Z" means UTC: it reads as the "+00:00" offset. */
  lemma ZMeansUtc(s: string)
    requires NoZ(s)
    ensures ParseDatetime(Some(s + "Z")) == ParseDatetime(Some(s + "+00:00"))
  {
    ReplaceZAppend(s, "Z");
    ReplaceZNoZ(s);
    assert NoZ(s + "+00:00");
    ReplaceZNoZ(s + "+00:00");
  }

  /** A naive date-time: date, separator, clock and an optional fraction. */
  predicate NaiveStamp(b: string) {
    |b| >= 19 && ParseDate(b[..10]).Some? && ParseClock(b[11..19]).Some?
    && FractionLength(b[19..]) == |b| - 19 && FractionLength(b[19..]) != 1
  }

  lemma {:induction false} DigitRunAppend(a: string, o: string)
    requires AllDigits(a) && (o == [] || !IsDigit(o[0]))
    ensures DigitRun(a + o) == |a|
  {
    if a != [] {
      assert (a + o)[1..] == a[1..] + o;
      DigitRunAppend(a[1..], o);
    } else {
      assert a + o == o;
    }
  }

  lemma FractionAppend(t: string, o: string)
    requires FractionLength(t) == |t| && FractionLength(t) != 1
    requires o == [] || (!IsDigit(o[0]) && o[0] != '.')
    ensures FractionLength(t + o) == |t| && (t + o)[|t|..] == o
  {
    if t != [] {
      assert t[1..][..DigitRun(t[1..])] == t[1..];
      assert (t + o)[1..] == t[1..] + o;
      DigitRunAppend(t[1..], o);
    }
  }

  /** A UTC offset shifts the instant back by its own length; a naive time
      is read as UTC. */
  lemma OffsetShifts(b: string, o: string)
    requires NaiveStamp(b) && o != [] && ParseOffset(o).Some?
    ensures ParseIso(b + o).Some? && ParseIso(b).Some?
    ensures ParseIso(b + o).value == ParseIso(b).value - ParseOffset(o).value
  {
    var s := b + o;
    assert s[..10] == b[..10] && s[11..19] == b[11..19];
    assert s[19..] == b[19..] + o;
    FractionAppend(b[19..], o);
    assert b[19..][FractionLength(b[19..])..] == [];
  }

  function DigitOf(c: char): int { c as int - '0' as int }

  lemma TwoDigits(s: string)
    requires |s| == 2 && IsDigit(s[0]) && IsDigit(s[1])
    ensures Digits(s) == Some(DigitOf(s[0]) * 10 + DigitOf(s[1]))
  {
    assert AllDigits(s);
    var one := s[..1];
    assert one[..0] == [] && one[0] == s[0];
    assert DigitsValue(one) == DigitOf(s[0]);
    assert s[..|s| - 1] == one;
  }

  lemma FourDigits(s: string)
    requires |s| == 4 && IsDigit(s[0]) && IsDigit(s[1]) && IsDigit(s[2]) && IsDigit(s[3])
    ensures Digits(s) == Some(((DigitOf(s[0]) * 10 + DigitOf(s[1])) * 10 + DigitOf(s[2])) * 10 + DigitOf(s[3]))
  {
    assert AllDigits(s);
    TwoDigits(s[..2]);
    assert s[..3][..2] == s[..2] && s[..3][2] == s[2];
    assert DigitsValue(s[..3]) == DigitsValue(s[..2]) * 10 + DigitOf(s[2]);
    assert s[..|s| - 1] == s[..3];
  }

  lemma UtcOffsetIsZero()
    ensures ParseOffset("+00:00") == Some(0)
  {
    var o := "+00:00";
    assert o[1..3] == "00" && o[4..] == "00";
    TwoDigits("00");
  }

  lemma NoZAppend(a: string, b: string)
    requires NoZ(a) && NoZ(b)
    ensures NoZ(a + b)
  {
    forall i | 0 <= i < |a + b| ensures (a + b)[i] != 'Z' {
      if i >= |a| {
        assert (a + b)[i] == b[i - |a|];
      }
    }
  }

  lemma NaiveIsPlusZero(b: string)
    requires NaiveStamp(b) && NoZ(b)
    ensures ParseDatetime(Some(b + "+00:00")) == ParseIso(b) && ParseIso(b).Some?
  {
    assert NoZ("+00:00");
    NoZAppend(b, "+00:00");
    ReplaceZNoZ(b + "+00:00");
    UtcOffsetIsZero();
    OffsetShifts(b, "+00:00");
  }

  /** A naive time and the same time marked "+00:00" or "Z" are one instant. */
  lemma NaiveMeansUtc(b: string)
    requires NaiveStamp(b) && NoZ(b)
    ensures ParseDatetime(Some(b)) == ParseDatetime(Some(b + "+00:00")) == ParseDatetime(Some(b + "Z"))
    ensures ParseDatetime(Some(b)).Some?
  {
    ReplaceZNoZ(b);
    ZMeansUtc(b);
    NaiveIsPlusZero(b);
  }

  lemma DateExample()
    ensures ParseDate("2026-02-14") == Some(Date(2026, 2, 14))
  {
    var ds := "2026-02-14";
    assert ds[..4] == "2026" && ds[5..7] == "02" && ds[8..] == "14";
    FourDigits("2026");
    TwoDigits("02");
    TwoDigits("14");
  }

  lemma ClockExample()
    ensures ParseClock("10:30:00") == Some(Clock(10, 30, 0))
  {
    var cs := "10:30:00";
    assert cs[..2] == "10" && cs[3..5] == "30" && cs[6..] == "00";
    TwoDigits("10");
    TwoDigits("30");
    TwoDigits("00");
  }

  lemma IsoExample(b: string)
    requires b == "2026-02-14T10:30:00"
    ensures ParseIso(b) == Some(1771065000) && NaiveStamp(b)
  {
    assert b[..10] == "2026-02-14";
    assert b[11..19] == "10:30:00";
    assert b[19..] == [];
    DateExample();
    ClockExample();
    ExampleDay();
  }

  /** 14 February 2026 is day 20498 of the Unix epoch. */
  lemma ExampleDay()
    ensures Ordinal(2026, 2, 14) - EpochOrdinal == 20498
  {
  }

  /** The timestamp format of Pocket's API documentation. */
  lemma ParseDatetimeExample()
    ensures ParseDatetime(Some("2026-02-14T10:30:00Z")) == Some(1771065000)
  {
    var b := "2026-02-14T10:30:00";
    assert "2026-02-14T10:30:00Z" == b + "Z";
    ExampleIsNaive(b);
  }

  lemma ExampleIsNaive(b: string)
    requires b == "2026-02-14T10:30:00"
    ensures ParseDatetime(Some(b + "Z")) == Some(1771065000)
  {
    IsoExample(b);
    assert NoZ(b);
    ReplaceZNoZ(b);
    NaiveMeansUtc(b);
  }

  // ---------------------------------------------------------------------
  // `_parse_recording`
  // ---------------------------------------------------------------------

  /** What mapping a detail document gives: no recording (no id), a
      recording, or the exception Python raises on a malformed document. */
  datatype Parse = NoId | Parsed(rec: Recording) | ParseFailed(error: Error)

  const UntitledAction := "Untitled Action"

  /** The name one tag entry contributes, if any. */
  function TagName(t: Json): (r: Option<string>)
    ensures r.Some? ==> r.value != []
    ensures t.JStr? ==> (r.Some? <==> t.s != [])
  {
    if t.JObj? then
      var n := Or(GetNull(t, "name"), GetNull(t, "label"));
      if Truthy(n) then (TruthyStr(n); Some(Str(n))) else None
    else
      var s := Str(t);
      if s != [] then Some(s) else None
  }

  lemma TruthyStr(j: Json)
    requires Truthy(j)
    ensures Str(j) != []
  {
    if j.JNum? {
      assert |IntToString(j.n)| >= 1;
    }
  }

  /** The tag loop: one name per entry that yields a non-empty one, in order. */
  function TagNames(items: seq<Json>): (r: seq<string>)
    ensures |r| <= |items|
    ensures forall k :: 0 <= k < |r| ==> r[k] != []
  {
    if items == [] then []
    else TagNames(items[..|items| - 1]) + Present(TagName(items[|items| - 1]))
  }

  /** The dictionaries among `items`, in order. */
  function DictsOnly(items: seq<Json>): (r: seq<Json>)
    ensures |r| <= |items|
    ensures forall k :: 0 <= k < |r| ==> r[k].JObj?
  {
    if items == [] then []
    else DictsOnly(items[..|items| - 1]) + (if items[|items| - 1].JObj? then [items[|items| - 1]] else [])
  }

  /** Filtering distributes over concatenation: the dictionaries keep their
      relative order and no other entry survives. */
  lemma {:induction false} DictsOnlyAppend(a: seq<Json>, b: seq<Json>)
    ensures DictsOnly(a + b) == DictsOnly(a) + DictsOnly(b)
    decreases |b|
  {
    if b == [] {
      assert a + b == a;
    } else {
      var ab := a + b;
      assert ab[..|ab| - 1] == a + b[..|b| - 1];
      DictsOnlyAppend(a, b[..|b| - 1]);
    }
  }

  /** One action entry (a dictionary) as an `ActionItem`. */
  function MakeAction(a: Json): (item: ActionItem)
    requires a.JObj?
    ensures !HasKey(a.fields, "label") ==> item.labelText == UntitledAction
    ensures HasKey(a.fields, "label") && Lookup(a.fields, "label").value.JStr? ==>
      item.labelText == Lookup(a.fields, "label").value.s
    ensures item.priority.Some? <==> GetNull(a, "priority").JStr?
  {
    var due := GetNull(a, "dueDate");
    ActionItem(
      match Lookup(a.fields, "label") case None => UntitledAction case Some(v) => Str(v),
      AsString(GetNull(a, "priority")),
      if Truthy(due) then ParseDatetimeJson(due) else None,
      AsString(GetNull(a, "assignee")),
      AsString(GetNull(a, "context")),
      AsString(GetNull(a, "type")))
  }

  /** The action loop: one item per dictionary entry, in order. */
  function ActionItems(items: seq<Json>): (r: seq<ActionItem>)
    ensures |r| == |DictsOnly(items)|
    ensures forall k :: 0 <= k < |r| ==> r[k] == MakeAction(DictsOnly(items)[k])
  {
    var ds := DictsOnly(items);
    seq(|ds|, k requires 0 <= k < |ds| => MakeAction(ds[k]))
  }

  /** `int(duration_raw)` where it does not raise. */
  function IntOf(j: Json): (r: Option<int>)
    ensures j.JNum? ==> r == Some(j.n)
  {
    match j
    case JNum(n) => Some(n)
    case JBool(b) => Some(if b then 1 else 0)
    case JStr(s) => ParseInt(s)
    case _ => None
  }

  /** The summary: the `markdown` field, else the `summary` field. */
  function SummaryOf(summ: Json): Option<string>
    requires summ.JObj?
  {
    var v2 := GetOr(summ, "v2_summary", JObj([]));
    if v2.JObj? then AsString(Or(GetNull(v2, "markdown"), GetNull(v2, "summary"))) else None
  }

  /** The raw mind-map nodes. */
  function MindMapOf(summ: Json): seq<Json>
    requires summ.JObj?
  {
    var v2 := GetOr(summ, "v2_mind_map", JObj([]));
    if v2.JObj? then (match GetOr(v2, "nodes", JArr([])) case JArr(items) => items case _ => []) else []
  }

  /** The action entries, or None where iterating them raises. */
  function ActionsOf(summ: Json): Option<seq<ActionItem>>
    requires summ.JObj?
  {
    var v2 := GetOr(summ, "v2_action_items", JObj([]));
    var list := if v2.JObj? then GetOr(v2, "actions", JArr([])) else JArr([]);
    match Items(list)
    case None => None
    case Some(items) => Some(ActionItems(items))
  }

  /** `_parse_recording` */
  function ParseRecording(data: Json): (r: Parse)
    ensures r.NoId? <==> data.JObj? && !Truthy(GetNull(data, "id"))
    ensures r.Parsed? ==> data.JObj? && r.rec.id != [] && r.rec.id == Str(GetNull(data, "id"))
    ensures r.Parsed? ==> r.rec.pocketUrl == Some(PocketWebUrl + "/recordings/" + r.rec.id)
    ensures r.Parsed? ==> forall k :: 0 <= k < |r.rec.tags| ==> r.rec.tags[k] != []
  {
    if !data.JObj? then ParseFailed(AttributeError)
    else
      var id := GetNull(data, "id");
      if !Truthy(id) then NoId
      else
        var tagItems := Items(Or(GetNull(data, "tags"), JArr([])));
        var summ := GetOr(data, "summarizations", JObj([]));
        if tagItems.None? then ParseFailed(TypeError)
        else if !summ.JObj? then ParseFailed(AttributeError)
        else
          var actions := ActionsOf(summ);
          if actions.None? then ParseFailed(TypeError)
          else
            TruthyStr(id);
            var transcript := GetOr(data, "transcript", JObj([]));
            var duration := Or(GetNull(data, "duration"), GetNull(data, "durationSeconds"));
            Parsed(Recording(
              Str(id),
              AsString(Or(GetNull(data, "title"), GetNull(data, "name"))),
              SummaryOf(summ),
              if transcript.JObj? then AsString(GetNull(transcript, "text")) else None,
              TagNames(tagItems.value),
              actions.value,
              MindMapOf(summ),
              ParseDatetimeJson(Or(GetNull(data, "createdAt"), GetNull(data, "created_at"))),
              if Truthy(duration) then IntOf(duration) else None,
              Some(PocketWebUrl + "/recordings/" + Str(id))))
  }

  /** The title falls back from `title` to `name`. */
  lemma TitleFallback(data: Json)
    requires ParseRecording(data).Parsed?
    ensures var t := GetNull(data, "title");
      t.JStr? && t.s != [] ==> ParseRecording(data).rec.title == Some(t.s)
    ensures var t := GetNull(data, "title");
      !Truthy(t) ==> ParseRecording(data).rec.title == AsString(GetNull(data, "name"))
  {
  }

  /** The summary falls back from `markdown` to `summary`; without
      `summarizations` there is no summary, no action item and no mind map. */
  lemma SummaryFallback(data: Json)
    requires ParseRecording(data).Parsed?
    ensures !HasKey(data.fields, "summarizations") ==>
      var rec := ParseRecording(data).rec;
      rec.summary.None? && rec.actionItems == [] && rec.mindMap == []
    ensures var summ := GetNull(data, "summarizations");
      summ.JObj? && GetNull(summ, "v2_summary").JObj? ==>
      var v2 := GetNull(summ, "v2_summary");
      var md := GetNull(v2, "markdown");
      ParseRecording(data).rec.summary ==
        (if Truthy(md) then AsString(md) else AsString(GetNull(v2, "summary")))
  {
    if !HasKey(data.fields, "summarizations") {
      var e: seq<(string, Json)> := [];
      assert !HasKey(e, "v2_summary") && !HasKey(e, "v2_mind_map") && !HasKey(e, "v2_action_items");
      assert !HasKey(e, "actions");
      assert DictsOnly([]) == [];
    }
  }

  /** Only dictionary action entries become items; a missing label reads
      "Untitled Action". */
  lemma ActionEntries(data: Json)
    requires ParseRecording(data).Parsed?
    requires var summ := GetNull(data, "summarizations");
      summ.JObj? && GetNull(summ, "v2_action_items").JObj? && GetNull(GetNull(summ, "v2_action_items"), "actions").JArr?
    ensures var list := GetNull(GetNull(GetNull(data, "summarizations"), "v2_action_items"), "actions").items;
      var items := ParseRecording(data).rec.actionItems;
      |items| == |DictsOnly(list)| && |items| <= |list|
      && forall k :: 0 <= k < |items| ==>
        (!HasKey(DictsOnly(list)[k].fields, "label") ==> items[k].labelText == UntitledAction)
  {
  }

  /** Tags: a dictionary entry contributes its `name`, else its `label`; any
      other entry its `str`; entries yielding an empty name are dropped. */
  lemma TagsFromEntries(data: Json)
    requires ParseRecording(data).Parsed?
    requires GetNull(data, "tags").JArr?
    ensures ParseRecording(data).rec.tags == TagNames(GetNull(data, "tags").items)
  {
  }

  // ---------------------------------------------------------------------
  // `fetch_recordings`
  // ---------------------------------------------------------------------

  /** The created date of a list entry, if it parses. */
  function CreatedAt(e: Json): Option<int>
    requires e.JObj?
  {
    ParseDatetimeJson(Or(GetNull(e, "createdAt"), GetNull(e, "created_at")))
  }

  /** A list entry the `since` filter drops: its date parses and is not
      after the watermark. */
  predicate NotAfter(e: Json, since: Option<int>)
    requires e.JObj?
  {
    since.Some? && CreatedAt(e).Some? && CreatedAt(e).value <= since.value
  }

  /** A list entry whose details are requested. */
  predicate Eligible(e: Json, since: Option<int>) {
    e.JObj? && Truthy(GetNull(e, "id")) && !NotAfter(e, since)
  }

  /** The id the details request is made for. */
  function EntryId(e: Json): string
    requires e.JObj?
  {
    Str(GetNull(e, "id"))
  }

  /** The outcome of the loop, and the list positions whose details were
      requested, in request order. */
  datatype Fetch = Fetch(result: Outcome<seq<Recording>>, asked: seq<nat>)

  /** What the loop does with one list entry: passes over it, stops with an
      exception (after requesting its details or not), or requested its
      details and takes the recordings `got` (none or one). */
  datatype Step = Pass | Stop(error: Error, requested: bool) | Take(got: seq<Recording>)

  function EntryStep(e: Json, since: Option<int>, details: string -> Outcome<Json>): (st: Step)
    ensures st.Stop? && !st.requested <==> !e.JObj?
    ensures st.Pass? ==> e.JObj? && !Eligible(e, since)
    ensures st.Take? || (st.Stop? && st.requested) ==> Eligible(e, since)
    ensures st.Take? ==> st.got == Contribution(e, details)
  {
    if !e.JObj? then Stop(AttributeError, false)
    else if !Eligible(e, since) then Pass
    else
      match details(EntryId(e))
      case Raised(err) => if IsRequestException(err) then Take([]) else Stop(err, true)
      case Ok(d) =>
        match ParseRecording(d)
        case ParseFailed(err) => Stop(err, true)
        case NoId => Take([])
        case Parsed(rec) => Take([rec])
  }

  /** The loop over `list[i..]`. */
  function FetchFrom(list: seq<Json>, since: Option<int>, details: string -> Outcome<Json>, i: nat): Fetch
    requires i <= |list|
    decreases |list| - i
  {
    if i == |list| then Fetch(Ok([]), [])
    else
      match EntryStep(list[i], since, details)
      case Pass => FetchFrom(list, since, details, i + 1)
      case Stop(err, requested) => Fetch(Raised(err), if requested then [i] else [])
      case Take(got) => Then(i, got, FetchFrom(list, since, details, i + 1))
  }

  /** Position `i` was requested and contributed `got`, then `rest` happened. */
  function Then(i: nat, got: seq<Recording>, rest: Fetch): (f: Fetch)
    ensures f.asked == [i] + rest.asked
  {
    Fetch(match rest.result case Ok(v) => Ok(got + v) case Raised(e) => Raised(e), [i] + rest.asked)
  }

  /** What a requested entry contributes when the loop does not stop on it:
      its recording, or nothing when the request failed or the document had
      no id. */
  function Contribution(e: Json, details: string -> Outcome<Json>): seq<Recording>
    requires e.JObj?
  {
    match details(EntryId(e))
    case Ok(d) => (match ParseRecording(d) case Parsed(rec) => [rec] case _ => [])
    case Raised(_) => []
  }

  predicate AskedOk(list: seq<Json>, since: Option<int>, asked: seq<nat>) {
    forall k :: 0 <= k < |asked| ==> asked[k] < |list| && Eligible(list[asked[k]], since)
  }

  /** The contributions of the requested entries, in request order. */
  function Collected(list: seq<Json>, since: Option<int>, details: string -> Outcome<Json>, asked: seq<nat>): (r: seq<Recording>)
    requires AskedOk(list, since, asked)
    ensures |r| <= |asked|
  {
    if asked == [] then []
    else Contribution(list[asked[0]], details) + Collected(list, since, details, asked[1..])
  }

  /** Positions from `i` on, increasing, of eligible entries. */
  predicate AskedFrom(list: seq<Json>, since: Option<int>, asked: seq<nat>, i: nat) {
    Increasing(asked) && AskedOk(list, since, asked) && forall k :: 0 <= k < |asked| ==> i <= asked[k]
  }

  lemma AskedCons(list: seq<Json>, since: Option<int>, i: nat, rest: seq<nat>)
    requires i < |list| && Eligible(list[i], since) && AskedFrom(list, since, rest, i + 1)
    ensures AskedFrom(list, since, [i] + rest, i)
  {
    var s := [i] + rest;
    forall a, b | 0 <= a < b < |s| ensures s[a] < s[b] {
      assert s[b] == rest[b - 1];
      if a > 0 {
        assert s[a] == rest[a - 1];
      }
    }
  }

  /** Details are requested only for eligible entries, each at most once,
      in list order. */
  lemma {:induction false} FetchAsksEligible(list: seq<Json>, since: Option<int>, details: string -> Outcome<Json>, i: nat)
    requires i <= |list|
    ensures AskedFrom(list, since, FetchFrom(list, since, details, i).asked, i)
    decreases |list| - i
  {
    if i < |list| {
      var st := EntryStep(list[i], since, details);
      if st.Pass? || st.Take? {
        FetchAsksEligible(list, since, details, i + 1);
      }
      if st.Take? {
        AskedCons(list, since, i, FetchFrom(list, since, details, i + 1).asked);
      }
    }
  }

  /** When the loop completes, every entry was a dictionary and every
      eligible one had its details requested. */
  lemma {:induction false} FetchAsksEvery(list: seq<Json>, since: Option<int>, details: string -> Outcome<Json>, i: nat)
    requires i <= |list|
    ensures var f := FetchFrom(list, since, details, i);
      f.result.Ok? ==> forall j :: i <= j < |list| ==> list[j].JObj? && (Eligible(list[j], since) ==> j in f.asked)
    decreases |list| - i
  {
    if i < |list| {
      var st := EntryStep(list[i], since, details);
      if st.Pass? || st.Take? {
        FetchAsksEvery(list, since, details, i + 1);
        var f := FetchFrom(list, since, details, i);
        var rest := FetchFrom(list, since, details, i + 1);
        if f.result.Ok? {
          forall j | i <= j < |list| ensures list[j].JObj? && (Eligible(list[j], since) ==> j in f.asked) {
            if j > i && Eligible(list[j], since) {
              assert j in rest.asked;
            }
          }
        }
      }
    }
  }

  /** When the loop completes, its recordings are the contributions of the
      requested entries in order: a failed request drops only its entry. */
  lemma {:induction false} FetchCollects(list: seq<Json>, since: Option<int>, details: string -> Outcome<Json>, i: nat)
    requires i <= |list|
    ensures var f := FetchFrom(list, since, details, i);
      AskedOk(list, since, f.asked) && (f.result.Ok? ==> f.result.value == Collected(list, since, details, f.asked))
    decreases |list| - i
  {
    FetchAsksEligible(list, since, details, i);
    if i < |list| {
      var st := EntryStep(list[i], since, details);
      if st.Pass? || st.Take? {
        FetchCollects(list, since, details, i + 1);
      }
      if st.Take? {
        var f := FetchFrom(list, since, details, i);
        assert f.asked[1..] == FetchFrom(list, since, details, i + 1).asked;
      }
    }
  }

  /** Everything the fetch loop promises about its outcome. */
  predicate FetchSound(list: seq<Json>, since: Option<int>, details: string -> Outcome<Json>,
                       r: Outcome<seq<Recording>>, asked: seq<nat>) {
    Increasing(asked) && AskedOk(list, since, asked)
    && (r.Ok? ==> forall j :: 0 <= j < |list| && Eligible(list[j], since) ==> j in asked)
    && (r.Ok? ==> r.value == Collected(list, since, details, asked) && |r.value| <= |list|)
  }

  lemma FetchFromSound(list: seq<Json>, since: Option<int>, details: string -> Outcome<Json>)
    ensures var f := FetchFrom(list, since, details, 0);
      FetchSound(list, since, details, f.result, f.asked)
  {
    var f := FetchFrom(list, since, details, 0);
    FetchAsksEligible(list, since, details, 0);
    FetchAsksEvery(list, since, details, 0);
    FetchCollects(list, since, details, 0);
    IncreasingLength(f.asked, |list|);
  }

  /** Increasing positions below `n` number at most `n`. */
  lemma {:induction false} IncreasingLength(s: seq<nat>, n: nat)
    requires Increasing(s) && forall k :: 0 <= k < |s| ==> s[k] < n
    ensures |s| <= n
    decreases |s|
  {
    if s != [] {
      var init := s[..|s| - 1];
      forall k | 0 <= k < |init| ensures init[k] < s[|s| - 1] {
        assert init[k] == s[k];
      }
      IncreasingLength(init, s[|s| - 1]);
    }
  }

  /** Joining what the loop has gathered with what the rest of it does. */
  function Join(recordings: seq<Recording>, asked: seq<nat>, rest: Fetch): Fetch {
    Fetch(match rest.result case Ok(v) => Ok(recordings + v) case Raised(e) => Raised(e), asked + rest.asked)
  }

  lemma JoinNothing(f: Fetch)
    ensures Join([], [], f) == f
  {
    assert [] + f.asked == f.asked;
    if f.result.Ok? {
      assert [] + f.result.value == f.result.value;
    }
  }

  lemma JoinThen(recordings: seq<Recording>, asked: seq<nat>, i: nat, got: seq<Recording>, rest: Fetch)
    ensures Join(recordings, asked, Then(i, got, rest)) == Join(recordings + got, asked + [i], rest)
  {
    assert asked + ([i] + rest.asked) == asked + [i] + rest.asked;
    if rest.result.Ok? {
      assert recordings + (got + rest.result.value) == recordings + got + rest.result.value;
    }
  }

  /** `fetch_recordings` over the list reply `list`: requests the details of
      every entry that has an id and passes the `since` filter, keeps the
      recordings that parse, and drops an entry whose request raised an HTTP
      exception. Any other exception ends the loop and propagates. */
  method FetchRecordings(list: seq<Json>, since: Option<int>, details: string -> Outcome<Json>)
    returns (r: Outcome<seq<Recording>>, asked: seq<nat>)
    ensures Fetch(r, asked) == FetchFrom(list, since, details, 0)
    ensures Increasing(asked) && AskedOk(list, since, asked)
    ensures r.Ok? ==> forall j :: 0 <= j < |list| && Eligible(list[j], since) ==> j in asked
    ensures r.Ok? ==> r.value == Collected(list, since, details, asked) && |r.value| <= |list|
  {
    r, asked := FetchLoop(list, since, details);
    FetchFromSound(list, since, details);
  }

  /** The loop of `fetch_recordings`; `asked` are the positions whose
      details it requested. */
  method FetchLoop(list: seq<Json>, since: Option<int>, details: string -> Outcome<Json>)
    returns (r: Outcome<seq<Recording>>, asked: seq<nat>)
    ensures Fetch(r, asked) == FetchFrom(list, since, details, 0)
  {
    var recordings: seq<Recording> := [];
    asked := [];
    var i: nat := 0;
    JoinNothing(FetchFrom(list, since, details, 0));
    while i < |list|
      invariant i <= |list|
      invariant FetchFrom(list, since, details, 0) == Join(recordings, asked, FetchFrom(list, since, details, i))
    {
      var st := FetchEntry(list[i], since, details);
      match st {
        case Stop(err, requested) =>
          if requested {
            asked := asked + [i];
          } else {
            assert asked + [] == asked;
          }
          r := Raised(err);
          return;
        case Pass =>
        case Take(got) =>
          JoinThen(recordings, asked, i, got, FetchFrom(list, since, details, i + 1));
          recordings := recordings + got;
          asked := asked + [i];
      }
      i := i + 1;
    }
    r := Ok(recordings);
    assert recordings + [] == recordings && asked + [] == asked;
  }

  /** One pass of `fetch_recordings`' loop over the entry `e`. */
  method FetchEntry(e: Json, since: Option<int>, details: string -> Outcome<Json>) returns (st: Step)
    ensures st == EntryStep(e, since, details)
  {
    if !e.JObj? {
      return Stop(AttributeError, false);
    }
    var id := GetNull(e, "id");
    var passes := Truthy(id);
    if passes && since.Some? {
      var created := ParseDatetimeJson(Or(GetNull(e, "createdAt"), GetNull(e, "created_at")));
      if created.Some? && created.value <= since.value {
        passes := false;
      }
    }
    if !passes {
      return Pass;
    }
    assert Eligible(e, since);
    var reply := details(Str(id));
    match reply {
      case Raised(err) =>
        st := if IsRequestException(err) then Take([]) else Stop(err, true);
      case Ok(d) =>
        var p := ParseRecording(d);
        st := match p
          case ParseFailed(err) => Stop(err, true)
          case NoId => Take([])
          case Parsed(rec) => Take([rec]);
    }
  }
}
