/**
 * Builders for Notion rich text and blocks, the `**bold**` scanner and the
 * line-by-line reading of a markdown summary.
 */
module Blocks {
  import opened Text

  // ---------------------------------------------------------------------
  // Rich text and blocks
  // ---------------------------------------------------------------------

  datatype Annotations = Annotations(bold: bool, italic: bool, color: string)

  /** A rich-text run: its content, its link if any, and its annotations,
      present only when they differ from the defaults. */
  datatype RichText = RichText(content: string, link: Option<string>, annotations: Option<Annotations>)

  datatype Block =
    | Callout(icon: string, calloutColor: string, text: seq<RichText>)
    | Divider
    | Toggle(text: seq<RichText>, children: seq<Block>)
    | Bullet(text: seq<RichText>)
    | Paragraph(text: seq<RichText>)
    | Quote(text: seq<RichText>, quoteColor: string)
    | ToDo(text: seq<RichText>, checked: bool)
    | Heading(level: int, text: seq<RichText>, headingColor: string)

  /** The per-run limit `safe_text` applies by default, below Notion's 2000. */
  const MaxRichText := 1900

  /** `text[:n]` with Python's reading of a negative bound. */
  function SliceTo(text: string, n: int): (r: string)
    ensures |r| <= |text| && r == text[..|r|]
    ensures n >= 0 ==> |r| == if n <= |text| then n else |text|
  {
    if n >= 0 then (if n <= |text| then text[..n] else text)
    else if -n <= |text| then text[..|text| + n] else []
  }

  /** `safe_text(text, max_length)` */
  function SafeText(text: string, maxLength: int): (r: string)
    ensures text == [] ==> r == []
    ensures |text| <= maxLength ==> r == text
    ensures text != [] && |text| > maxLength ==> EndsWith(r, "...") && r[..|r| - 3] == SliceTo(text, maxLength - 3)
    ensures |text| > maxLength >= 3 ==> |r| == maxLength && r[..maxLength - 3] == text[..maxLength - 3]
  {
    if text == [] then []
    else if |text| <= maxLength then text
    else
      var r := SliceTo(text, maxLength - 3) + "...";
      assert r[..|r| - 3] == SliceTo(text, maxLength - 3);
      r
  }

  /** The content of any run is at most 1900 characters. */
  lemma SafeTextBounded(text: string)
    ensures |SafeText(text, MaxRichText)| <= MaxRichText
  {
  }

  /** `create_rich_text(content, bold, italic, color, link)` */
  function CreateRichText(content: string, bold: bool, italic: bool, color: string, link: Option<string>): (r: RichText)
    ensures r.content == SafeText(content, MaxRichText)
    ensures r.link.Some? <==> link.Some? && link.value != []
    ensures r.link.Some? ==> r.link == link
    ensures r.annotations.Some? <==> bold || italic || color != "default"
    ensures r.annotations.Some? ==> r.annotations.value == Annotations(bold, italic, color)
  {
    RichText(
      SafeText(content, MaxRichText),
      if link.Some? && link.value != [] then link else None,
      if bold || italic || color != "default" then Some(Annotations(bold, italic, color)) else None)
  }

  /** A plain run: no link, no annotations. */
  function Plain(content: string): (r: RichText)
    ensures r.link.None? && r.annotations.None? && r.content == SafeText(content, MaxRichText)
  {
    CreateRichText(content, false, false, "default", None)
  }

  const DefaultCalloutIcon := "\U{1F4A1}"

  function CreateCallout(text: string, icon: string, color: string): (b: Block)
    ensures b.Callout? && b.icon == icon && b.calloutColor == color && b.text == [Plain(text)]
  {
    Callout(icon, color, [Plain(text)])
  }

  function CreateDivider(): (b: Block)
    ensures b.Divider?
  {
    Divider
  }

  function CreateToggle(title: string, children: seq<Block>): (b: Block)
    ensures b.Toggle? && b.text == [Plain(title)] && b.children == children
  {
    Toggle([Plain(title)], children)
  }

  /** `create_bullet(text, bold_prefix)`: with a non-empty prefix, a bold
      "prefix: " run precedes the text run. */
  function CreateBullet(text: string, boldPrefix: Option<string>): (b: Block)
    ensures b.Bullet?
    ensures boldPrefix.Some? && boldPrefix.value != [] ==>
      |b.text| == 2 && b.text[0].content == SafeText(boldPrefix.value + ": ", MaxRichText)
      && b.text[0].annotations == Some(Annotations(true, false, "default")) && b.text[1] == Plain(text)
    ensures !(boldPrefix.Some? && boldPrefix.value != []) ==> b.text == [Plain(text)]
  {
    if boldPrefix.Some? && boldPrefix.value != [] then
      Bullet([CreateRichText(boldPrefix.value + ": ", true, false, "default", None), Plain(text)])
    else
      Bullet([Plain(text)])
  }

  function CreateParagraph(text: string, link: Option<string>, color: string): (b: Block)
    ensures b.Paragraph? && b.text == [CreateRichText(text, false, false, color, link)]
  {
    Paragraph([CreateRichText(text, false, false, color, link)])
  }

  function CreateQuote(text: string, color: string): (b: Block)
    ensures b.Quote? && b.quoteColor == color && b.text == [Plain(text)]
  {
    Quote([Plain(text)], color)
  }

  function CreateToDo(text: string, checked: bool): (b: Block)
    ensures b.ToDo? && b.checked == checked && b.text == [Plain(text)]
  {
    ToDo([Plain(text)], checked)
  }

  /** `create_heading(text, level, color)`: the level is clamped into 1..3. */
  function CreateHeading(text: string, level: int, color: string): (b: Block)
    ensures b.Heading? && 1 <= b.level <= 3
    ensures 1 <= level <= 3 ==> b.level == level
    ensures level < 1 ==> b.level == 1
    ensures level > 3 ==> b.level == 3
    ensures b.text == [Plain(text)] && b.headingColor == color
  {
    var clamped := if level < 1 then 1 else if level > 3 then 3 else level;
    Heading(clamped, [Plain(text)], color)
  }

  // ---------------------------------------------------------------------
  // Durations
  // ---------------------------------------------------------------------

  /** `format_duration(seconds)`: "Unknown", "0:SS", "M:SS" or "H:MM:SS". */
  function FormatDuration(seconds: int): (r: string)
    ensures seconds <= 0 ==> r == "Unknown"
    ensures seconds > 0 ==> r != [] && IsDigit(r[0])
  {
    if seconds <= 0 then "Unknown"
    else if seconds < 60 then "0:" + Pad2(seconds)
    else
      var minutes := seconds / 60;
      var secs := seconds % 60;
      if minutes < 60 then
        var h := NatToString(minutes);
        assert (h + ":" + Pad2(secs))[0] == h[0];
        h + ":" + Pad2(secs)
      else
        var h := NatToString(minutes / 60);
        assert (h + ":" + Pad2(minutes % 60) + ":" + Pad2(secs))[0] == h[0];
        h + ":" + Pad2(minutes % 60) + ":" + Pad2(secs)
  }

  /** Reads "H:MM:SS", "M:SS" back into seconds. */
  function ParseDuration(s: string): Option<int> {
    var parts := Split(s, ':');
    if |parts| == 2 && AllDigits(parts[0]) && AllDigits(parts[1]) then
      Some(DigitsValue(parts[0]) * 60 + DigitsValue(parts[1]))
    else if |parts| == 3 && AllDigits(parts[0]) && AllDigits(parts[1]) && AllDigits(parts[2]) then
      Some(DigitsValue(parts[0]) * 3600 + DigitsValue(parts[1]) * 60 + DigitsValue(parts[2]))
    else None
  }

  lemma DigitsHaveNoColon(s: string)
    requires AllDigits(s)
    ensures ':' !in s
  {
  }

  lemma RoundTripUnderMinute(seconds: int)
    requires 0 < seconds < 60
    ensures ParseDuration(FormatDuration(seconds)) == Some(seconds)
  {
    var p := Pad2(seconds);
    Pad2Value(seconds);
    DigitsHaveNoColon(p);
    assert "0:" + p == "0" + [':'] + p;
    SplitAtFirst("0", ':', p);
    SplitNoSeparator(p, ':');
    assert Split(FormatDuration(seconds), ':') == ["0", p];
    assert DigitsValue("0") == 0 by { assert "0"[..0] == []; }
  }

  lemma RoundTripUnderHour(seconds: int)
    requires 60 <= seconds < 3600
    ensures ParseDuration(FormatDuration(seconds)) == Some(seconds)
  {
    var m := NatToString(seconds / 60);
    var p := Pad2(seconds % 60);
    var t := m + [':'] + p;
    MinutesFieldsValue(seconds);
    ParseTwoFields(m, p);
    var r := ParseDuration(t);
    assert r.Some? && r.value == seconds;
    assert r == Some(seconds);
    assert FormatDuration(seconds) == t;
  }

  /** The two rendered fields are digits and recombine to the seconds. */
  lemma MinutesFieldsValue(seconds: int)
    requires seconds >= 60
    ensures AllDigits(NatToString(seconds / 60)) && AllDigits(Pad2(seconds % 60))
    ensures DigitsValue(NatToString(seconds / 60)) * 60 + DigitsValue(Pad2(seconds % 60)) == seconds
  {
    NatToStringValue(seconds / 60);
    Pad2Value(seconds % 60);
  }

  /** Two colon-separated digit fields read as minutes and seconds. */
  lemma ParseTwoFields(m: string, p: string)
    requires AllDigits(m) && AllDigits(p)
    ensures ParseDuration(m + [':'] + p).Some?
    ensures ParseDuration(m + [':'] + p).value == DigitsValue(m) * 60 + DigitsValue(p)
  {
    var parts := Split(m + [':'] + p, ':');
    DigitsHaveNoColon(m);
    DigitsHaveNoColon(p);
    SplitAtFirst(m, ':', p);
    SplitNoSeparator(p, ':');
    assert |parts| == 2 && parts[0] == m && parts[1] == p;
  }

  lemma HoursArithmetic(seconds: int)
    requires seconds >= 3600
    ensures (seconds / 60 / 60) * 3600 + (seconds / 60 % 60) * 60 + seconds % 60 == seconds
  {
    var minutes := seconds / 60;
    assert seconds == minutes * 60 + seconds % 60;
    assert minutes == (minutes / 60) * 60 + minutes % 60;
  }

  /** Three colon-separated digit fields read as hours, minutes, seconds. */
  lemma ParseThreeFields(h: string, mm: string, p: string)
    requires AllDigits(h) && AllDigits(mm) && AllDigits(p)
    ensures ParseDuration(h + [':'] + (mm + [':'] + p)).Some?
    ensures ParseDuration(h + [':'] + (mm + [':'] + p)).value
      == DigitsValue(h) * 3600 + DigitsValue(mm) * 60 + DigitsValue(p)
  {
    var parts := Split(h + [':'] + (mm + [':'] + p), ':');
    SplitThree(h, mm, p);
    assert |parts| == 3 && parts[0] == h && parts[1] == mm && parts[2] == p;
  }

  lemma SplitThree(h: string, mm: string, p: string)
    requires AllDigits(h) && AllDigits(mm) && AllDigits(p)
    ensures Split(h + [':'] + (mm + [':'] + p), ':') == [h, mm, p]
  {
    DigitsHaveNoColon(h);
    DigitsHaveNoColon(mm);
    DigitsHaveNoColon(p);
    SplitAtFirst(h, ':', mm + [':'] + p);
    SplitAtFirst(mm, ':', p);
    SplitNoSeparator(p, ':');
  }

  /** From an hour on, the rendering is "H:MM:SS". */
  lemma FormatHours(seconds: int)
    requires seconds >= 3600
    ensures FormatDuration(seconds)
      == NatToString(seconds / 60 / 60) + [':'] + (Pad2(seconds / 60 % 60) + [':'] + Pad2(seconds % 60))
  {
  }

  lemma RoundTripHours(seconds: int)
    requires seconds >= 3600
    ensures ParseDuration(FormatDuration(seconds)) == Some(seconds)
  {
    var h := NatToString(seconds / 60 / 60);
    var mm := Pad2(seconds / 60 % 60);
    var p := Pad2(seconds % 60);
    var t := h + [':'] + (mm + [':'] + p);
    HoursFieldsValue(seconds);
    ParseThreeFields(h, mm, p);
    var r := ParseDuration(t);
    assert r.Some? && r.value == seconds;
    assert r == Some(seconds);
    FormatHours(seconds);
  }

  /** The three rendered fields are digits and recombine to the seconds. */
  lemma HoursFieldsValue(seconds: int)
    requires seconds >= 3600
    ensures AllDigits(NatToString(seconds / 60 / 60)) && AllDigits(Pad2(seconds / 60 % 60)) && AllDigits(Pad2(seconds % 60))
    ensures DigitsValue(NatToString(seconds / 60 / 60)) * 3600 + DigitsValue(Pad2(seconds / 60 % 60)) * 60
      + DigitsValue(Pad2(seconds % 60)) == seconds
  {
    NatToStringValue(seconds / 60 / 60);
    Pad2Value(seconds / 60 % 60);
    Pad2Value(seconds % 60);
    HoursArithmetic(seconds);
  }

  /** The rendered fields recombine to the original number of seconds. */
  lemma FormatDurationRoundTrip(seconds: int)
    requires seconds > 0
    ensures ParseDuration(FormatDuration(seconds)) == Some(seconds)
  {
    if seconds < 60 {
      RoundTripUnderMinute(seconds);
    } else if seconds < 3600 {
      RoundTripUnderHour(seconds);
    } else {
      RoundTripHours(seconds);
    }
  }

  /** Worked cases: 45 s, 125 s and 3725 s. */
  lemma FormatDurationExamples()
    ensures FormatDuration(45) == "0:45"
    ensures FormatDuration(125) == "2:05"
    ensures FormatDuration(3725) == "1:02:05"
    ensures FormatDuration(-1) == "Unknown"
  {
  }

  // ---------------------------------------------------------------------
  // Priority styles
  // ---------------------------------------------------------------------

  datatype PriorityStyle = PriorityStyle(icon: string, color: string)

  const HighStyle := PriorityStyle("\U{1F525}", "red_background")
  const MediumStyle := PriorityStyle("\U{26A1}", "yellow_background")
  const LowStyle := PriorityStyle("\U{1F4DD}", "gray_background")
  const NoneStyle := PriorityStyle("\U{1F4A1}", "default")

  /** `get_priority_style(priority)`: trimmed and title-cased, then looked up;
      a missing or unknown priority gets the `None` style. */
  function GetPriorityStyle(priority: Option<string>): (r: PriorityStyle)
    ensures r in {HighStyle, MediumStyle, LowStyle, NoneStyle}
    ensures priority.None? ==> r == NoneStyle
  {
    if priority.None? then NoneStyle
    else
      var p := Title(Strip(priority.value));
      if p == "High" then HighStyle
      else if p == "Medium" then MediumStyle
      else if p == "Low" then LowStyle
      else NoneStyle
  }

  lemma StripLower(s: string)
    ensures Strip(Lower(s)) == Lower(Strip(s))
  {
    LStripLower(s);
    var l := LStrip(s);
    RStripLower(l);
  }

  lemma LowerCharSpace(c: char)
    ensures IsSpace(LowerChar(c)) <==> IsSpace(c)
  {
    if 'A' <= c <= 'Z' {
      assert 'a' <= LowerChar(c) <= 'z';
    }
  }

  lemma {:induction false} LStripLower(s: string)
    ensures LStrip(Lower(s)) == Lower(LStrip(s))
    decreases |s|
  {
    if s != [] {
      assert Lower(s)[0] == LowerChar(s[0]);
      assert Lower(s)[1..] == Lower(s[1..]);
      LowerCharSpace(s[0]);
      if IsSpace(s[0]) {
        LStripLower(s[1..]);
      }
    }
  }

  lemma {:induction false} RStripLower(s: string)
    ensures RStrip(Lower(s)) == Lower(RStrip(s))
    decreases |s|
  {
    if s != [] {
      assert Lower(s)[|s| - 1] == LowerChar(s[|s| - 1]);
      assert Lower(s)[..|s| - 1] == Lower(s[..|s| - 1]);
      LowerCharSpace(s[|s| - 1]);
      if IsSpace(s[|s| - 1]) {
        RStripLower(s[..|s| - 1]);
      }
    }
  }

  lemma TitleLower(s: string)
    ensures Title(Lower(s)) == Title(s)
  {
    var a, b := Title(Lower(s)), Title(s);
    forall i | 0 <= i < |s|
      ensures a[i] == b[i]
    {
      LowerCharCase(s[i]);
      if i > 0 {
        LowerCharCase(s[i - 1]);
      }
    }
    assert a == b;
  }

  /** Lowering a character keeps whether it is cased and what upper- or
      lower-casing makes of it. */
  lemma LowerCharCase(c: char)
    ensures IsCased(LowerChar(c)) == IsCased(c)
    ensures LowerChar(LowerChar(c)) == LowerChar(c) && UpperChar(LowerChar(c)) == UpperChar(c)
  {
  }

  /** The style does not depend on the priority's letter case. */
  lemma PriorityStyleIgnoresCase(p: string)
    ensures GetPriorityStyle(Some(Lower(p))) == GetPriorityStyle(Some(p))
  {
    StripLower(p);
    TitleLower(Strip(p));
  }

  // ---------------------------------------------------------------------
  // Bold segments
  // ---------------------------------------------------------------------

  /** The first `*` at or after `j`, or `|t|`. */
  function StarFrom(t: string, j: nat): (k: nat)
    ensures j <= |t| ==> j <= k <= |t|
    ensures j > |t| ==> k == j
    ensures k < |t| ==> t[k] == '*'
    decreases |t| - j
  {
    if j >= |t| || t[j] == '*' then j else StarFrom(t, j + 1)
  }

  /** No star lies between `j` and the one `StarFrom` finds. */
  lemma {:induction false} StarFromSkips(t: string, j: nat, m: nat)
    requires j <= m < StarFrom(t, j) && m < |t|
    ensures t[m] != '*'
    decreases |t| - j
  {
    if m > j {
      StarFromSkips(t, j + 1, m);
    }
  }

  /** The pattern `\*\*([^*]+)\*\*` matches at `i`: two stars, one or more
      non-stars, two stars. */
  predicate MatchAt(t: string, i: nat) {
    i + 2 <= |t| && t[i] == '*' && t[i + 1] == '*'
    && var k := StarFrom(t, i + 2); k > i + 2 && k + 1 < |t| && t[k + 1] == '*'
  }

  /** Where the match at `i` ends. */
  function MatchEnd(t: string, i: nat): (e: nat)
    requires MatchAt(t, i)
    ensures i + 5 <= e <= |t|
  {
    StarFrom(t, i + 2) + 2
  }

  /** The leftmost match starting at or after `from`. */
  function NextMatch(t: string, from: nat): (r: Option<nat>)
    ensures r.Some? ==> from <= r.value && MatchAt(t, r.value)
    decreases |t| - from
  {
    if from + 2 > |t| then None
    else if MatchAt(t, from) then Some(from)
    else NextMatch(t, from + 1)
  }

  /** The match `NextMatch` finds is the leftmost one, and when it finds none
      there is none. */
  lemma {:induction false} NextMatchLeftmost(t: string, from: nat, i: nat)
    requires from <= i
    requires NextMatch(t, from).Some? ==> i < NextMatch(t, from).value
    ensures !MatchAt(t, i)
    decreases |t| - from
  {
    if from + 2 <= |t| && !MatchAt(t, from) && i > from {
      NextMatchLeftmost(t, from + 1, i);
    }
  }

  datatype Segment = PlainText(s: string) | BoldText(s: string)

  /** The segments `re.finditer` yields from `from` on: the non-empty text
      before each match, the match's group, and the non-empty tail. */
  function Segments(t: string, from: nat): (r: seq<Segment>)
    requires from <= |t|
    decreases |t| - from
  {
    match NextMatch(t, from)
    case None => if from < |t| then [PlainText(t[from..])] else []
    case Some(i) => StepSegments(t, from, i) + Segments(t, MatchEnd(t, i))
  }

  /** The segments of one match: the non-empty text before it, then its group. */
  function StepSegments(t: string, from: nat, i: nat): (r: seq<Segment>)
    requires from <= i && MatchAt(t, i)
  {
    (if i > from then [PlainText(t[from..i])] else []) + [BoldText(t[i + 2..MatchEnd(t, i) - 2])]
  }


  function Render(s: Segment): (r: RichText)
    ensures r.content == SafeText(s.s, MaxRichText)
  {
    if s.BoldText? then CreateRichText(s.s, true, false, "default", None) else Plain(s.s)
  }

  function RenderAll(segs: seq<Segment>): (r: seq<RichText>)
    ensures |r| == |segs| && forall k :: 0 <= k < |segs| ==> r[k] == Render(segs[k])
  {
    if segs == [] then [] else [Render(segs[0])] + RenderAll(segs[1..])
  }


  /** The runs one match contributes: the plain text before it, if any,
      then the bold group. */
  function StepRuns(t: string, from: nat, i: nat): (r: seq<RichText>)
    requires from <= i && MatchAt(t, i)
    ensures |r| >= 1
  {
    (if i > from then [Plain(t[from..i])] else [])
      + [CreateRichText(t[i + 2..MatchEnd(t, i) - 2], true, false, "default", None)]
  }

  /** The runs the scan produces from `from` on, before the empty-input
      fallback: each match's runs, then the plain tail. */
  function RunsFrom(t: string, from: nat): seq<RichText>
    requires from <= |t|
    decreases |t| - from
  {
    match NextMatch(t, from)
    case None => if from < |t| then [Plain(t[from..])] else []
    case Some(i) => StepRuns(t, from, i) + RunsFrom(t, MatchEnd(t, i))
  }

  /** What `parse_bold_segments` returns for `text`. */
  function BoldRuns(text: string): (r: seq<RichText>)
    ensures |r| >= 1
  {
    var runs := RunsFrom(text, 0);
    if runs == [] then [Plain(text)] else runs
  }

  /** The runs are the segments, each rendered: plain or bold. */
  lemma {:induction false} RunsFromSegments(t: string, from: nat)
    requires from <= |t|
    ensures RunsFrom(t, from) == RenderAll(Segments(t, from))
    decreases |t| - from
  {
    match NextMatch(t, from)
    case None =>
    case Some(i) =>
      RunsFromSegments(t, MatchEnd(t, i));
      RenderAllAppend(StepSegments(t, from, i), Segments(t, MatchEnd(t, i)));
      StepRender(t, from, i);
  }

  lemma StepRender(t: string, from: nat, i: nat)
    requires from <= i && MatchAt(t, i)
    ensures RenderAll(StepSegments(t, from, i)) == StepRuns(t, from, i)
  {
    var bold := BoldText(t[i + 2..MatchEnd(t, i) - 2]);
    if i > from {
      RenderAllAppend([PlainText(t[from..i])], [bold]);
    }
  }


  /** The scan's invariant survives one match. */
  lemma ScanStep(t: string, runs: seq<RichText>, from: nat, i: nat, total: seq<RichText>)
    requires from <= |t| && NextMatch(t, from) == Some(i)
    requires runs + RunsFrom(t, from) == total
    ensures runs + StepRuns(t, from, i) + RunsFrom(t, MatchEnd(t, i)) == total
  {
    AppendAssoc(runs, StepRuns(t, from, i), RunsFrom(t, MatchEnd(t, i)));
  }

  /** No match left: the runs end with the plain tail, if any. */
  lemma ScanEnd(t: string, runs: seq<RichText>, from: nat, total: seq<RichText>)
    requires from <= |t| && NextMatch(t, from).None?
    requires runs + RunsFrom(t, from) == total
    ensures (if from < |t| then runs + [Plain(t[from..])] else runs) == total
  {
    if from == |t| {
      assert runs + [] == runs;
    }
  }

  /** `parse_bold_segments(text)`: walks the matches left to right, emitting
      the plain text before each, the bold group, and the plain tail. */
  method ParseBoldSegments(text: string) returns (runs: seq<RichText>)
    ensures runs == BoldRuns(text)
  {
    runs := [];
    var lastEnd: nat := 0;
    var m := NextMatch(text, 0);
    while m.Some?
      invariant lastEnd <= |text|
      invariant m == NextMatch(text, lastEnd)
      invariant runs + RunsFrom(text, lastEnd) == RunsFrom(text, 0)
      decreases |text| - lastEnd
    {
      var start := m.value;
      ScanStep(text, runs, lastEnd, start, RunsFrom(text, 0));
      runs := runs + StepRuns(text, lastEnd, start);
      lastEnd := MatchEnd(text, start);
      m := NextMatch(text, lastEnd);
    }
    ScanEnd(text, runs, lastEnd, RunsFrom(text, 0));
    if lastEnd < |text| {
      runs := runs + [Plain(text[lastEnd..])];
    }
    if runs == [] {
      runs := [Plain(text)];
    }
  }


  lemma {:induction false} RenderAllAppend(a: seq<Segment>, b: seq<Segment>)
    ensures RenderAll(a + b) == RenderAll(a) + RenderAll(b)
  {
  }

  /** The text a segment stands for in the input. */
  function Source(s: Segment): string {
    if s.BoldText? then "**" + s.s + "**" else s.s
  }

  function Concat(segs: seq<Segment>): string {
    if segs == [] then [] else Source(segs[0]) + Concat(segs[1..])
  }

  lemma {:induction false} ConcatAppend(a: seq<Segment>, b: seq<Segment>)
    ensures Concat(a + b) == Concat(a) + Concat(b)
  {
    if a != [] {
      assert (a + b)[1..] == a[1..] + b;
      ConcatAppend(a[1..], b);
    } else {
      assert a + b == b;
    }
  }


  /** Putting the markers back around the bold segments restores the input. */
  lemma {:induction false} SegmentsReassemble(t: string, from: nat)
    requires from <= |t|
    ensures Concat(Segments(t, from)) == t[from..]
    decreases |t| - from
  {
    match NextMatch(t, from)
    case None =>
      TailReassembles(t, from);
    case Some(i) =>
      SegmentsReassemble(t, MatchEnd(t, i));
      StepReassembles(t, from, i);
  }

  /** With no match left, the segments are the plain tail. */
  lemma TailReassembles(t: string, from: nat)
    requires from <= |t| && NextMatch(t, from).None?
    ensures Concat(Segments(t, from)) == t[from..]
  {
    if from < |t| {
      assert Concat([PlainText(t[from..])]) == t[from..];
    }
  }

  /** One match followed by a reassembled rest reassembles from `from`. */
  lemma StepReassembles(t: string, from: nat, i: nat)
    requires from <= |t| && NextMatch(t, from) == Some(i)
    requires Concat(Segments(t, MatchEnd(t, i))) == t[MatchEnd(t, i)..]
    ensures Concat(Segments(t, from)) == t[from..]
  {
    var e := MatchEnd(t, i);
    assert Segments(t, from) == StepSegments(t, from, i) + Segments(t, e);
    ConcatAppend(StepSegments(t, from, i), Segments(t, e));
    StepConcat(t, from, i);
    SliceJoin(t, from, e);
  }

  /** One match's segments cover the text from `from` to the match's end. */
  lemma StepConcat(t: string, from: nat, i: nat)
    requires from <= i && MatchAt(t, i)
    ensures Concat(StepSegments(t, from, i)) == t[from..MatchEnd(t, i)]
  {
    var e := MatchEnd(t, i);
    var bold := [BoldText(t[i + 2..e - 2])];
    if i > from {
      var plain := [PlainText(t[from..i])];
      assert Concat(StepSegments(t, from, i)) == t[from..i] + t[i..e] by {
        assert StepSegments(t, from, i) == plain + bold;
        ConcatAppend(plain, bold);
        assert Concat(plain) == t[from..i] by {
          assert plain[1..] == [];
        }
        MatchSource(t, i);
      }
      assert t[from..e] == t[from..i] + t[i..e];
    } else {
      assert StepSegments(t, from, i) == bold;
      MatchSource(t, i);
    }
  }

  /** A match's text is its group between the two markers. */
  lemma MatchSource(t: string, i: nat)
    requires MatchAt(t, i)
    ensures Concat([BoldText(t[i + 2..MatchEnd(t, i) - 2])]) == t[i..MatchEnd(t, i)]
  {
    var e := MatchEnd(t, i);
    var g := t[i + 2..e - 2];
    assert Concat([BoldText(g)]) == "**" + g + "**";
    assert t[i..i + 2] == "**";
    assert t[e - 2..e] == "**";
    assert t[i..e] == t[i..i + 2] + g + t[e - 2..e];
  }


  /** Every bold segment is non-empty and free of stars; every plain one is
      non-empty. */
  lemma {:induction false} SegmentsWellFormed(t: string, from: nat)
    requires from <= |t|
    ensures forall k :: 0 <= k < |Segments(t, from)| ==> Segments(t, from)[k].s != []
    ensures forall k :: 0 <= k < |Segments(t, from)| && Segments(t, from)[k].BoldText? ==> '*' !in Segments(t, from)[k].s
    decreases |t| - from
  {
    match NextMatch(t, from)
    case None =>
    case Some(i) =>
      var e := MatchEnd(t, i);
      SegmentsWellFormed(t, e);
      StepWellFormed(t, from, i);
      var step := StepSegments(t, from, i);
      var segs := Segments(t, from);
      var rest := Segments(t, e);
      assert segs == step + rest;
      forall k | 0 <= k < |segs|
        ensures segs[k].s != [] && (segs[k].BoldText? ==> '*' !in segs[k].s)
      {
        if k >= |step| {
          assert segs[k] == rest[k - |step|];
        } else {
          assert segs[k] == step[k];
        }
      }
  }

  /** The group of a match is non-empty and star-free. */
  lemma StepWellFormed(t: string, from: nat, i: nat)
    requires from <= i && MatchAt(t, i)
    ensures forall k :: 0 <= k < |StepSegments(t, from, i)| ==> StepSegments(t, from, i)[k].s != []
    ensures forall k :: 0 <= k < |StepSegments(t, from, i)| && StepSegments(t, from, i)[k].BoldText? ==>
      '*' !in StepSegments(t, from, i)[k].s
  {
    var e := MatchEnd(t, i);
    var bold := t[i + 2..e - 2];
    assert '*' !in bold by {
      forall m | 0 <= m < |bold| ensures bold[m] != '*' {
        assert bold[m] == t[i + 2 + m];
        StarFromSkips(t, i + 2, i + 2 + m);
      }
    }
  }

  /** With no run over the 1900-character limit, the runs' contents are the
      segments' texts, bold exactly where the input had `**...**`. */
  lemma BoldRunsContents(text: string)
    requires forall k :: 0 <= k < |Segments(text, 0)| ==> |Segments(text, 0)[k].s| <= MaxRichText
    ensures Segments(text, 0) != [] ==>
      |BoldRuns(text)| == |Segments(text, 0)| &&
      forall k :: 0 <= k < |BoldRuns(text)| ==>
        BoldRuns(text)[k].content == Segments(text, 0)[k].s &&
        (BoldRuns(text)[k].annotations.Some? <==> Segments(text, 0)[k].BoldText?)
  {
    RunsFromSegments(text, 0);
  }

  lemma BoldExample()
    ensures Segments("a **b** c", 0) == [PlainText("a "), BoldText("b"), PlainText(" c")]
  {
    var t := "a **b** c";
    assert !MatchAt(t, 0) && !MatchAt(t, 1);
    assert StarFrom(t, 4) == 5;
    assert MatchAt(t, 2);
    assert NextMatch(t, 0) == Some(2);
    assert MatchEnd(t, 2) == 7;
    assert !MatchAt(t, 7);
    assert NextMatch(t, 8) == None;
    assert NextMatch(t, 7) == None;
    assert Segments(t, 7) == [PlainText(" c")];
    assert t[0..2] == "a " && t[4..5] == "b";
    assert StepSegments(t, 0, 2) == [PlainText("a "), BoldText("b")];
    assert Segments(t, 0) == StepSegments(t, 0, 2) + Segments(t, 7);
  }

  // ---------------------------------------------------------------------
  // Markdown summary
  // ---------------------------------------------------------------------

  /** The block one line of the summary becomes, or None for a blank line. */
  function LineBlock(raw: string): (r: Option<Block>)
    ensures r.None? <==> IsBlank(RStrip(raw))
    ensures r.Some? ==> r.value.Heading? || r.value.Bullet? || r.value.Paragraph?
  {
    var line := RStrip(raw);
    StripEmptyIffBlank(line);
    if Strip(line) == [] then None
    else if StartsWith(line, "### ") then
      Some(Heading(3, BoldRuns(Strip(line[4..])), "default"))
    else if StartsWith(LStrip(line), "- ") then
      Some(Bullet(BoldRuns(Strip(LStrip(line)[2..]))))
    else
      Some(Paragraph(BoldRuns(line)))
  }

  function LineBlocks(lines: seq<string>): (r: seq<Block>)
    ensures |r| <= |lines|
  {
    if lines == [] then []
    else Present(LineBlock(lines[0])) + LineBlocks(lines[1..])
  }

  /** The lines `parse_markdown_to_blocks` reads. */
  function SummaryLines(markdown: string): seq<string> {
    Split(Strip(markdown), '\n')
  }

  /** The body of the per-line loop: the block for one line, if any. */
  method LineToBlock(raw: string) returns (b: Option<Block>)
    ensures b == LineBlock(raw)
  {
    var line := RStrip(raw);
    if Strip(line) == [] {
      return None;
    }
    if StartsWith(line, "### ") {
      var runs := ParseBoldSegments(Strip(line[4..]));
      b := Some(Heading(3, runs, "default"));
    } else if StartsWith(LStrip(line), "- ") {
      var runs := ParseBoldSegments(Strip(LStrip(line)[2..]));
      b := Some(Bullet(runs));
    } else {
      var runs := ParseBoldSegments(line);
      b := Some(Paragraph(runs));
    }
  }

  /** `parse_markdown_to_blocks(markdown)`: nothing for an empty summary,
      otherwise one block per non-blank line of the stripped text. */
  method ParseMarkdownToBlocks(markdown: string) returns (blocks: seq<Block>)
    ensures markdown == [] ==> blocks == []
    ensures markdown != [] ==> blocks == LineBlocks(SummaryLines(markdown))
  {
    if markdown == [] {
      return [];
    }
    blocks := BlocksOfLines(SummaryLines(markdown));
  }

  /** The per-line loop of `parse_markdown_to_blocks`. */
  method BlocksOfLines(lines: seq<string>) returns (blocks: seq<Block>)
    ensures blocks == LineBlocks(lines)
  {
    blocks := [];
    var k := 0;
    while k < |lines|
      invariant 0 <= k <= |lines|
      invariant blocks + LineBlocks(lines[k..]) == LineBlocks(lines)
    {
      var b := LineToBlock(lines[k]);
      LinesStep(lines, k, blocks, b, LineBlocks(lines));
      if b.Some? {
        blocks := blocks + [b.value];
      }
      k := k + 1;
    }
    assert lines[k..] == [];
    assert blocks + [] == blocks;
  }

  /** The loop's invariant survives one line. */
  lemma LinesStep(lines: seq<string>, k: nat, blocks: seq<Block>, b: Option<Block>, total: seq<Block>)
    requires k < |lines| && b == LineBlock(lines[k])
    requires blocks + LineBlocks(lines[k..]) == total
    ensures (if b.Some? then blocks + [b.value] else blocks) + LineBlocks(lines[k + 1..]) == total
  {
    assert lines[k..][0] == lines[k] && lines[k..][1..] == lines[k + 1..];
    AppendPresent(blocks, b, LineBlocks(lines[k + 1..]), total);
  }

  /** The present value of an option, as a sequence of zero or one items. */
  function Present<T>(o: Option<T>): (r: seq<T>)
    ensures |r| <= 1
  {
    if o.Some? then [o.value] else []
  }

  /** Appending an option's value, if any, and then the rest. */
  lemma AppendPresent<T>(a: seq<T>, o: Option<T>, rest: seq<T>, total: seq<T>)
    requires a + (Present(o) + rest) == total
    ensures (if o.Some? then a + [o.value] else a) + rest == total
  {
    AppendAssoc(a, Present(o), rest);
    if o.None? {
      assert a + [] == a;
    }
  }

  function CountBlank(lines: seq<string>): nat {
    if lines == [] then 0 else (if IsBlank(RStrip(lines[0])) then 1 else 0) + CountBlank(lines[1..])
  }

  /** One block per line that is not blank, in line order. */
  lemma {:induction false} LineBlocksCount(lines: seq<string>)
    ensures |LineBlocks(lines)| == |lines| - CountBlank(lines)
  {
    if lines != [] {
      LineBlocksCount(lines[1..]);
    }
  }

  /** Each block's kind follows its line: "### " opens a level-3 heading,
      a left-trimmed "- " a bullet, anything else a paragraph. */
  lemma LineBlockKinds(raw: string)
    requires !IsBlank(RStrip(raw))
    ensures var line := RStrip(raw);
      var b := LineBlock(raw).value;
      (StartsWith(line, "### ") ==> b.Heading? && b.level == 3)
      && (!StartsWith(line, "### ") && StartsWith(LStrip(line), "- ") ==> b.Bullet?)
      && (!StartsWith(line, "### ") && !StartsWith(LStrip(line), "- ") ==> b.Paragraph? && b.text == BoldRuns(line))
  {
    StripEmptyIffBlank(RStrip(raw));
  }
}
