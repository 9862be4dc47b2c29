/**
 * The content model: a recording fetched from Pocket, the values derived
 * from it (deduplication key, completeness, display title, icon), the Notion
 * page properties and page body built from it, and the tally of a sync pass.
 * Timestamps are whole seconds; the `strftime` renderings of a timestamp are
 * passed in as functions.
 */
module Models {
  import opened Text
  import opened Json
  import opened Blocks
  import opened MindMap

  /** Icon emoji per normalised tag. */
  const TagEmoji: seq<(string, string)> := [
    ("work", "\U{1F4BC}"),
    ("meeting", "\U{1F4C5}"),
    ("idea", "\U{1F4A1}"),
    ("reminder", "\U{23F0}"),
    ("personal", "\U{1F464}"),
    ("task", "\U{2705}"),
    ("note", "\U{1F4DD}"),
    ("question", "\U{2753}"),
    ("important", "\U{2B50}"),
    ("urgent", "\U{1F525}")
  ]

  /** The studio microphone shown when no tag has an emoji. */
  const DefaultEmoji := "\U{1F399}\U{FE0F}"

  datatype ActionItem = ActionItem(
    labelText: string,
    priority: Option<string>,
    dueDate: Option<int>,
    assignee: Option<string>,
    context: Option<string>,
    itemType: Option<string>)

  /** A recording, the unit of sync. `mindMap` keeps the raw outline nodes. */
  datatype Recording = Recording(
    id: string,
    title: Option<string>,
    summary: Option<string>,
    transcript: Option<string>,
    tags: seq<string>,
    actionItems: seq<ActionItem>,
    mindMap: seq<Json>,
    createdAt: Option<int>,
    durationSeconds: Option<int>,
    pocketUrl: Option<string>)

  /** Python truthiness of an optional string. */
  predicate Given(s: Option<string>) {
    s.Some? && s.value != []
  }

  // ---------------------------------------------------------------------
  // Derived values
  // ---------------------------------------------------------------------

  const PocketIdPrefix := "pocket:recording:"

  /** `pocket_id`: the key the destination is deduplicated on. */
  function PocketId(r: Recording): (key: string)
    ensures StartsWith(key, PocketIdPrefix) && key[|PocketIdPrefix|..] == r.id
  {
    PocketIdPrefix + r.id
  }

  /** Two recordings share a key exactly when they share an id. */
  lemma PocketIdInjective(a: Recording, b: Recording)
    ensures PocketId(a) == PocketId(b) <==> a.id == b.id
  {
    if PocketId(a) == PocketId(b) {
      assert a.id == PocketId(a)[|PocketIdPrefix|..];
    }
  }

  /** `is_summary_complete` */
  predicate IsSummaryComplete(r: Recording) {
    (Given(r.summary) && Strip(r.summary.value) != [])
    || |r.actionItems| > 0
    || |r.mindMap| > 0
  }

  /** Complete exactly when the summary is not blank, or there is an action
      item, or there is a mind-map node. */
  lemma IsSummaryCompleteIff(r: Recording)
    ensures IsSummaryComplete(r) <==>
      (r.summary.Some? && !IsBlank(r.summary.value)) || r.actionItems != [] || r.mindMap != []
  {
    if r.summary.Some? {
      StripEmptyIffBlank(r.summary.value);
    }
  }

  const UntitledRecording := "Untitled Recording"

  /** The summary up to its first full stop, trimmed. */
  function FirstSentence(summary: string): (r: string)
    ensures '.' !in r
  {
    var part := Split(summary, '.')[0];
    StripInside(part);
    Strip(part)
  }

  /** Whatever `strip` keeps was already in the text. */
  lemma StripInside(s: string)
    ensures forall c :: c in Strip(s) ==> c in s
  {
    var l := LStrip(s);
    assert forall c :: c in l ==> c in s by {
      assert l == s[|s| - |l|..];
    }
    assert Strip(s) == RStrip(l);
    assert RStrip(l) == l[..|RStrip(l)|];
  }

  /** `display_title` */
  function DisplayTitle(r: Recording): (t: string)
  {
    if Given(r.title) && Strip(r.title.value) != [] then Strip(r.title.value)
    else if Given(r.summary) then
      var first := FirstSentence(r.summary.value);
      if |first| > 60 then first[..57] + "..." else first
    else UntitledRecording
  }

  /** The title is chosen in order: the trimmed title when it is not blank;
      else the summary's first sentence, cut to 57 characters and "..." when
      longer than 60; else "Untitled Recording". */
  lemma DisplayTitleOrder(r: Recording)
    ensures r.title.Some? && !IsBlank(r.title.value) ==>
      DisplayTitle(r) == Strip(r.title.value) && DisplayTitle(r) != []
    ensures (r.title.None? || IsBlank(r.title.value)) && Given(r.summary) ==>
      var first := FirstSentence(r.summary.value);
      var t := DisplayTitle(r);
      |t| <= 60 && (|first| <= 60 ==> t == first)
      && (|first| > 60 ==> t[..57] == first[..57] && t[57..] == "..." && '.' !in t[..57])
    ensures (r.title.None? || IsBlank(r.title.value)) && !Given(r.summary) ==>
      DisplayTitle(r) == UntitledRecording
  {
    if r.title.Some? {
      StripEmptyIffBlank(r.title.value);
    }
    if (r.title.None? || IsBlank(r.title.value)) && Given(r.summary) {
      var first := FirstSentence(r.summary.value);
      if |first| > 60 {
        var t := first[..57] + "...";
        assert t[..57] == first[..57];
        assert forall c :: c in first[..57] ==> c in first;
      }
    }
  }

  // ---------------------------------------------------------------------
  // Icon
  // ---------------------------------------------------------------------

  /** `tag.strip().lower()` */
  function NormalizeTag(tag: string): string {
    Lower(Strip(tag))
  }

  predicate HasIcon(tag: string) {
    HasKey(TagEmoji, NormalizeTag(tag))
  }

  /** The first position at or after `from` whose element satisfies `p`. */
  function FirstWhere<T>(xs: seq<T>, p: T -> bool, from: nat): (r: Option<nat>)
    requires from <= |xs|
    ensures r.Some? ==> from <= r.value < |xs| && p(xs[r.value])
    ensures r.Some? ==> forall j :: from <= j < r.value ==> !p(xs[j])
    ensures r.None? ==> forall j :: from <= j < |xs| ==> !p(xs[j])
    decreases |xs| - from
  {
    if from == |xs| then None
    else if p(xs[from]) then Some(from)
    else FirstWhere(xs, p, from + 1)
  }

  /** The first position at or after `from` whose tag has an emoji. */
  function FirstIconTag(tags: seq<string>, from: nat): (r: Option<nat>)
    requires from <= |tags|
  {
    FirstWhere(tags, HasIcon, from)
  }

  /** The emoji `get_icon` picks for these tags. */
  function Icon(tags: seq<string>): string {
    match FirstIconTag(tags, 0)
    case Some(i) => Lookup(TagEmoji, NormalizeTag(tags[i])).value
    case None => DefaultEmoji
  }

  /** The icon is the emoji of the first tag that has one, else the default. */
  lemma IconIsFirstMatch(tags: seq<string>, i: nat)
    ensures (forall j :: 0 <= j < |tags| ==> !HasIcon(tags[j])) ==> Icon(tags) == DefaultEmoji
    ensures i < |tags| && HasIcon(tags[i]) && (forall j :: 0 <= j < i ==> !HasIcon(tags[j])) ==>
      Icon(tags) == Lookup(TagEmoji, NormalizeTag(tags[i])).value
  {
    var f := FirstIconTag(tags, 0);
    if i < |tags| && HasIcon(tags[i]) && (forall j :: 0 <= j < i ==> !HasIcon(tags[j])) {
      assert f.Some?;
      assert f.value == i;
    }
  }

  /** `get_icon()`: the emoji of the page icon. */
  method GetIcon(r: Recording) returns (emoji: string)
    ensures emoji == Icon(r.tags)
  {
    var k := 0;
    while k < |r.tags|
      invariant k <= |r.tags|
      invariant FirstIconTag(r.tags, k) == FirstIconTag(r.tags, 0)
    {
      var normalized := NormalizeTag(r.tags[k]);
      if HasKey(TagEmoji, normalized) {
        return Lookup(TagEmoji, normalized).value;
      }
      k := k + 1;
    }
    return DefaultEmoji;
  }

  // ---------------------------------------------------------------------
  // Page properties
  // ---------------------------------------------------------------------

  // The deduplication is stated over the normalisation `norm`, the trimming
  // `trim` and the lower-casing `lower` it uses, so that its proofs do not
  // depend on how strings are stripped or lower-cased; the tag code uses
  // NormalizeTag, Strip and Lower, and NormalizeTag is Lower after Strip.

  /** The non-blank normalised forms among `tags`. */
  function Forms(tags: seq<string>, norm: string -> string): set<string> {
    if tags == [] then {}
    else
      var n := norm(tags[|tags| - 1]);
      Forms(tags[..|tags| - 1], norm) + (if n != [] then {n} else {})
  }

  /** The names kept: each tag with a non-blank form, trimmed, unless a tag
      with the same form came earlier. */
  function Kept(tags: seq<string>, norm: string -> string, trim: string -> string): seq<string> {
    if tags == [] then []
    else
      var init := tags[..|tags| - 1];
      var n := norm(tags[|tags| - 1]);
      if n != [] && n !in Forms(init, norm) then Kept(init, norm, trim) + [trim(tags[|tags| - 1])]
      else Kept(init, norm, trim)
  }

  /** The positions of the tags kept. */
  function KeptAt(tags: seq<string>, norm: string -> string): (o: seq<nat>) {
    if tags == [] then []
    else
      var init := tags[..|tags| - 1];
      var n := norm(tags[|tags| - 1]);
      if n != [] && n !in Forms(init, norm) then KeptAt(init, norm) + [|tags| - 1] else KeptAt(init, norm)
  }

  /** The images of some names. */
  function Image(names: seq<string>, f: string -> string): set<string> {
    if names == [] then {} else Image(names[..|names| - 1], f) + {f(names[|names| - 1])}
  }

  function NormSet(tags: seq<string>): set<string> {
    Forms(tags, NormalizeTag)
  }

  /** The multi-select names. */
  function DedupTags(tags: seq<string>): seq<string> {
    Kept(tags, NormalizeTag, Strip)
  }

  lemma NormalizeIsLowerStrip()
    ensures forall t :: NormalizeTag(t) == Lower(Strip(t))
  {
  }

  lemma {:induction false} ImageMembers(names: seq<string>, f: string -> string)
    ensures forall j :: 0 <= j < |names| ==> f(names[j]) in Image(names, f)
  {
    if names != [] {
      var init := names[..|names| - 1];
      ImageMembers(init, f);
      forall j | 0 <= j < |names| ensures f(names[j]) in Image(names, f) {
        if j < |init| {
          assert names[j] == init[j];
        }
      }
    }
  }

  lemma {:induction false} FormsMembers(tags: seq<string>, norm: string -> string)
    ensures forall i :: 0 <= i < |tags| && norm(tags[i]) != [] ==> norm(tags[i]) in Forms(tags, norm)
    ensures forall n :: n in Forms(tags, norm) ==> n != []
  {
    if tags != [] {
      var init := tags[..|tags| - 1];
      FormsMembers(init, norm);
      forall i | 0 <= i < |tags| && norm(tags[i]) != [] ensures norm(tags[i]) in Forms(tags, norm) {
        if i < |init| {
          assert tags[i] == init[i];
        }
      }
    }
  }

  /** The kept names cover exactly the non-blank normalised forms. */
  lemma {:induction false} DedupTagsCover(tags: seq<string>, norm: string -> string, trim: string -> string,
                                          lower: string -> string)
    requires forall t :: norm(t) == lower(trim(t))
    ensures Image(Kept(tags, norm, trim), lower) == Forms(tags, norm)
  {
    if tags != [] {
      var init := tags[..|tags| - 1];
      var last := tags[|tags| - 1];
      var n := norm(last);
      DedupTagsCover(init, norm, trim, lower);
      var prev := Kept(init, norm, trim);
      if n != [] && n !in Forms(init, norm) {
        var out := prev + [trim(last)];
        assert out[..|out| - 1] == prev;
        assert lower(trim(last)) == n;
      }
    }
  }

  /** No two of `names` have the same image under `lower`, and none is blank. */
  predicate DistinctForms(names: seq<string>, lower: string -> string) {
    (forall a, b :: 0 <= a < b < |names| ==> lower(names[a]) != lower(names[b]))
    && forall a :: 0 <= a < |names| ==> lower(names[a]) != []
  }

  /** No two kept names have the same lower-cased form, and none is blank. */
  lemma {:induction false} DedupTagsDistinct(tags: seq<string>, norm: string -> string, trim: string -> string,
                                             lower: string -> string)
    requires forall t :: norm(t) == lower(trim(t))
    ensures DistinctForms(Kept(tags, norm, trim), lower)
  {
    if tags != [] {
      var init := tags[..|tags| - 1];
      var last := tags[|tags| - 1];
      var n := norm(last);
      DedupTagsDistinct(init, norm, trim, lower);
      var prev := Kept(init, norm, trim);
      if n != [] && n !in Forms(init, norm) {
        DedupTagsCover(init, norm, trim, lower);
        ImageMembers(prev, lower);
        DistinctExtend(prev, trim(last), lower, Forms(init, norm));
      }
    }
  }

  lemma DistinctExtend(prev: seq<string>, x: string, lower: string -> string, forms: set<string>)
    requires DistinctForms(prev, lower) && lower(x) != [] && lower(x) !in forms
    requires forall j :: 0 <= j < |prev| ==> lower(prev[j]) in forms
    ensures DistinctForms(prev + [x], lower)
  {
    var out := prev + [x];
    forall a, b | 0 <= a < b < |out| ensures lower(out[a]) != lower(out[b]) {
      assert out[a] == prev[a];
      if b < |prev| {
        assert out[b] == prev[b];
      }
    }
    forall a | 0 <= a < |out| ensures lower(out[a]) != [] {
      if a < |prev| {
        assert out[a] == prev[a];
      }
    }
  }

  /** Tag `i` is the first of `tags` with its form. */
  predicate FirstOfItsForm(tags: seq<string>, norm: string -> string, i: nat)
    requires i < |tags|
  {
    forall j :: 0 <= j < i ==> norm(tags[j]) != norm(tags[i])
  }

  /** Each kept name is the trimmed tag at its position, the first tag of its form. */
  predicate OriginsOk(tags: seq<string>, norm: string -> string, trim: string -> string, o: seq<nat>, kept: seq<string>) {
    |o| == |kept|
    && forall k :: 0 <= k < |o| ==>
      o[k] < |tags| && FirstOfItsForm(tags, norm, o[k]) && kept[k] == trim(tags[o[k]])
  }

  /** The kept names are the trimmed first tags of each form, in the order
      those tags come. */
  lemma {:induction false} DedupTagsFirstSpelling(tags: seq<string>, norm: string -> string, trim: string -> string)
    ensures OriginsOk(tags, norm, trim, KeptAt(tags, norm), Kept(tags, norm, trim))
    ensures Increasing(KeptAt(tags, norm))
    ensures forall k :: 0 <= k < |KeptAt(tags, norm)| ==> KeptAt(tags, norm)[k] < |tags|
  {
    if tags != [] {
      var init := tags[..|tags| - 1];
      var last := tags[|tags| - 1];
      var n := norm(last);
      DedupTagsFirstSpelling(init, norm, trim);
      var prev := Kept(init, norm, trim);
      var po := KeptAt(init, norm);
      OriginsWiden(tags, norm, trim, po, prev);
      if n != [] && n !in Forms(init, norm) {
        FirstIsLast(tags, norm);
        OriginsAppend(tags, norm, trim, po, prev);
      }
    }
  }

  lemma OriginsWiden(tags: seq<string>, norm: string -> string, trim: string -> string, o: seq<nat>, kept: seq<string>)
    requires tags != [] && OriginsOk(tags[..|tags| - 1], norm, trim, o, kept)
    ensures OriginsOk(tags, norm, trim, o, kept)
  {
    forall k | 0 <= k < |o|
      ensures o[k] < |tags| && FirstOfItsForm(tags, norm, o[k]) && kept[k] == trim(tags[o[k]])
    {
      FirstInInit(tags, norm, o[k]);
    }
  }

  lemma OriginsAppend(tags: seq<string>, norm: string -> string, trim: string -> string, o: seq<nat>, kept: seq<string>)
    requires tags != [] && OriginsOk(tags, norm, trim, o, kept) && FirstOfItsForm(tags, norm, |tags| - 1)
    ensures OriginsOk(tags, norm, trim, o + [|tags| - 1], kept + [trim(tags[|tags| - 1])])
  {
  }

  lemma FirstInInit(tags: seq<string>, norm: string -> string, i: nat)
    requires i < |tags| - 1 && FirstOfItsForm(tags[..|tags| - 1], norm, i)
    ensures FirstOfItsForm(tags, norm, i) && tags[i] == tags[..|tags| - 1][i]
  {
    var init := tags[..|tags| - 1];
    forall j | 0 <= j < i ensures norm(tags[j]) != norm(tags[i]) {
      assert tags[j] == init[j];
    }
  }

  lemma FirstIsLast(tags: seq<string>, norm: string -> string)
    requires tags != [] && norm(tags[|tags| - 1]) != []
    requires norm(tags[|tags| - 1]) !in Forms(tags[..|tags| - 1], norm)
    ensures FirstOfItsForm(tags, norm, |tags| - 1)
  {
    var init := tags[..|tags| - 1];
    FormsMembers(init, norm);
    forall j | 0 <= j < |tags| - 1 ensures norm(tags[j]) != norm(tags[|tags| - 1]) {
      assert tags[j] == init[j];
    }
  }

  /** What the source's tag handling keeps: the trimmed first spelling of
      each non-blank tag form, no two alike up to case, covering every form. */
  lemma UniqueTagsMeaning(tags: seq<string>)
    ensures LowerSet(DedupTags(tags)) == NormSet(tags)
    ensures DistinctForms(DedupTags(tags), Lower)
    ensures OriginsOk(tags, NormalizeTag, Strip, KeptAt(tags, NormalizeTag), DedupTags(tags))
  {
    NormalizeIsLowerStrip();
    DedupTagsCover(tags, NormalizeTag, Strip, Lower);
    DedupTagsDistinct(tags, NormalizeTag, Strip, Lower);
    DedupTagsFirstSpelling(tags, NormalizeTag, Strip);
  }

  function LowerSet(names: seq<string>): set<string> {
    Image(names, Lower)
  }

  /** The per-tag loop of `to_notion_properties`. */
  method UniqueTags(tags: seq<string>) returns (unique: seq<string>)
    ensures unique == DedupTags(tags)
  {
    var seen: set<string> := {};
    unique := [];
    var k := 0;
    while k < |tags|
      invariant k <= |tags|
      invariant Scanned(tags, NormalizeTag, Strip, k, seen, unique)
    {
      var normalized := NormalizeTag(tags[k]);
      DedupStep(tags, NormalizeTag, Strip, k, seen, unique);
      if normalized != [] && normalized !in seen {
        seen := seen + {normalized};
        unique := unique + [Strip(tags[k])];
      }
      k := k + 1;
    }
    assert tags[..k] == tags;
  }

  /** The loop state after the first `k` tags. */
  predicate Scanned(tags: seq<string>, norm: string -> string, trim: string -> string, k: nat,
                    seen: set<string>, unique: seq<string>)
    requires k <= |tags|
  {
    seen == Forms(tags[..k], norm) && unique == Kept(tags[..k], norm, trim)
  }

  /** One more tag: the set of forms seen and the kept names grow by it. */
  lemma DedupStep(tags: seq<string>, norm: string -> string, trim: string -> string, k: nat,
                  seen: set<string>, unique: seq<string>)
    requires k < |tags| && Scanned(tags, norm, trim, k, seen, unique)
    ensures var n := norm(tags[k]);
      n != [] && n !in seen ==> Scanned(tags, norm, trim, k + 1, seen + {n}, unique + [trim(tags[k])])
    ensures var n := norm(tags[k]);
      !(n != [] && n !in seen) ==> Scanned(tags, norm, trim, k + 1, seen, unique)
  {
    var p := tags[..k + 1];
    assert p[..k] == tags[..k] && p[k] == tags[k];
  }

  /** A property value of a page. */
  datatype PropValue =
    | TitleValue(text: string)
    | RichTextValue(text: string)
    | UrlValue(url: string)
    | MultiSelectValue(names: seq<string>)

  /** `property_map.get(key, default)` */
  function NameFor(propertyMap: seq<(string, string)>, key: string, default: string): string {
    match Lookup(propertyMap, key)
    case Some(name) => name
    case None => default
  }

  predicate EmitsUrl(r: Recording, propertyMap: seq<(string, string)>) {
    Given(r.pocketUrl) && HasKey(propertyMap, "source_url")
  }

  predicate EmitsTags(r: Recording, propertyMap: seq<(string, string)>) {
    r.tags != [] && HasKey(propertyMap, "tags") && DedupTags(r.tags) != []
  }

  /** The properties dictionary, built by successive assignments. */
  function Properties(r: Recording, propertyMap: seq<(string, string)>): seq<(string, PropValue)> {
    var p1 := Set([], NameFor(propertyMap, "title", "Name"), TitleValue(DisplayTitle(r)));
    var p2 := Set(p1, NameFor(propertyMap, "pocket_id", "Inbox ID"), RichTextValue(PocketId(r)));
    var p3 := if EmitsUrl(r, propertyMap)
      then Set(p2, Lookup(propertyMap, "source_url").value, UrlValue(r.pocketUrl.value)) else p2;
    if EmitsTags(r, propertyMap)
      then Set(p3, Lookup(propertyMap, "tags").value, MultiSelectValue(DedupTags(r.tags))) else p3
  }

  /** `to_notion_properties(property_map)` */
  method ToNotionProperties(r: Recording, propertyMap: seq<(string, string)>) returns (props: seq<(string, PropValue)>)
    ensures props == Properties(r, propertyMap)
  {
    props := [];
    var titleProp := NameFor(propertyMap, "title", "Name");
    props := Set(props, titleProp, TitleValue(DisplayTitle(r)));
    var pocketIdProp := NameFor(propertyMap, "pocket_id", "Inbox ID");
    props := Set(props, pocketIdProp, RichTextValue(PocketId(r)));
    if Given(r.pocketUrl) && HasKey(propertyMap, "source_url") {
      props := Set(props, Lookup(propertyMap, "source_url").value, UrlValue(r.pocketUrl.value));
    }
    if r.tags != [] && HasKey(propertyMap, "tags") {
      var unique := UniqueTags(r.tags);
      if unique != [] {
        props := Set(props, Lookup(propertyMap, "tags").value, MultiSelectValue(unique));
      }
    }
  }

  /** What each property name holds: a later assignment to the same name
      wins, and names that are never assigned are absent. */
  lemma PropertiesLookup(r: Recording, propertyMap: seq<(string, string)>, name: string)
    ensures Lookup(Properties(r, propertyMap), name) ==
      if EmitsTags(r, propertyMap) && name == Lookup(propertyMap, "tags").value
        then Some(MultiSelectValue(DedupTags(r.tags)))
      else if EmitsUrl(r, propertyMap) && name == Lookup(propertyMap, "source_url").value
        then Some(UrlValue(r.pocketUrl.value))
      else if name == NameFor(propertyMap, "pocket_id", "Inbox ID")
        then Some(RichTextValue(PocketId(r)))
      else if name == NameFor(propertyMap, "title", "Name")
        then Some(TitleValue(DisplayTitle(r)))
      else None
  {
    var titleName := NameFor(propertyMap, "title", "Name");
    var idName := NameFor(propertyMap, "pocket_id", "Inbox ID");
    var p0: seq<(string, PropValue)> := [];
    var p1 := Set(p0, titleName, TitleValue(DisplayTitle(r)));
    SetThenLookup(p0, titleName, TitleValue(DisplayTitle(r)), name, None);
    var l1: Option<PropValue> := if name == titleName then Some(TitleValue(DisplayTitle(r))) else None;
    var p2 := Set(p1, idName, RichTextValue(PocketId(r)));
    SetThenLookup(p1, idName, RichTextValue(PocketId(r)), name, l1);
    var l2 := if name == idName then Some(RichTextValue(PocketId(r))) else l1;
    var p3 := p2;
    var l3 := l2;
    if EmitsUrl(r, propertyMap) {
      var urlName := Lookup(propertyMap, "source_url").value;
      p3 := Set(p2, urlName, UrlValue(r.pocketUrl.value));
      SetThenLookup(p2, urlName, UrlValue(r.pocketUrl.value), name, l2);
      l3 := if name == urlName then Some(UrlValue(r.pocketUrl.value)) else l2;
    }
    var p4 := p3;
    var l4 := l3;
    if EmitsTags(r, propertyMap) {
      var tagsName := Lookup(propertyMap, "tags").value;
      p4 := Set(p3, tagsName, MultiSelectValue(DedupTags(r.tags)));
      SetThenLookup(p3, tagsName, MultiSelectValue(DedupTags(r.tags)), name, l3);
      l4 := if name == tagsName then Some(MultiSelectValue(DedupTags(r.tags))) else l3;
    }
    assert Properties(r, propertyMap) == p4;
    assert Lookup(p4, name) == l4;
  }

  lemma SetThenLookup<V>(fields: seq<(string, V)>, key: string, v: V, name: string, before: Option<V>)
    requires Lookup(fields, name) == before
    ensures Lookup(Set(fields, key, v), name) == if name == key then Some(v) else before
  {
    LookupSet(fields, key, v, name);
  }

  /** The title and the deduplication key always have a property, named
      "Name" and "Inbox ID" unless the property map says otherwise. */
  lemma PropertiesAlwaysNamed(r: Recording, propertyMap: seq<(string, string)>)
    ensures HasKey(Properties(r, propertyMap), NameFor(propertyMap, "title", "Name"))
    ensures HasKey(Properties(r, propertyMap), NameFor(propertyMap, "pocket_id", "Inbox ID"))
    ensures !HasKey(propertyMap, "title") ==> NameFor(propertyMap, "title", "Name") == "Name"
    ensures !HasKey(propertyMap, "pocket_id") ==> NameFor(propertyMap, "pocket_id", "Inbox ID") == "Inbox ID"
  {
    PropertiesLookup(r, propertyMap, NameFor(propertyMap, "title", "Name"));
    PropertiesLookup(r, propertyMap, NameFor(propertyMap, "pocket_id", "Inbox ID"));
  }

  /** With the default names and no source or tags entry, the page has exactly
      its title and its key. */
  lemma PropertiesDefault(r: Recording)
    ensures var props := Properties(r, [("title", "Name"), ("pocket_id", "Inbox ID")]);
      Lookup(props, "Name") == Some(TitleValue(DisplayTitle(r)))
      && Lookup(props, "Inbox ID") == Some(RichTextValue(PocketId(r)))
      && |props| == 2
  {
    var pm := [("title", "Name"), ("pocket_id", "Inbox ID")];
    assert Lookup(pm, "title") == Some("Name");
    assert pm[..1] == [("title", "Name")];
    assert Lookup(pm, "pocket_id") == Some("Inbox ID");
    assert !HasKey(pm, "source_url") && !HasKey(pm, "tags");
    PropertiesLookup(r, pm, "Name");
    PropertiesLookup(r, pm, "Inbox ID");
    var p1 := Set([], "Name", TitleValue(DisplayTitle(r)));
    assert p1 == [("Name", TitleValue(DisplayTitle(r)))];
    assert !HasKey(p1, "Inbox ID");
  }

  // ---------------------------------------------------------------------
  // Page body
  // ---------------------------------------------------------------------

  const ActionItemsHeading := "Action Items"
  const MindMapTitle := "\U{1F9E0} Mind Map"
  const TranscriptTitle := "\U{1F4DD} Full Transcript"
  const SourceDetailsTitle := "\U{1F4CE} Source Details"
  const PocketLinkText := "Open in Pocket AI \U{2192}"
  const PreviewLength := 500

  /** The to-do line of an action item: its label, then " [priority]" when
      it has one, then " \u2014 due " and the formatted due date when it has one. */
  function TodoText(item: ActionItem, dueFormat: int -> string): (t: string)
    ensures |item.labelText| <= |t| && t[..|item.labelText|] == item.labelText
    ensures |t| == |item.labelText| <==> !Given(item.priority) && item.dueDate.None?
  {
    var withPriority := if Given(item.priority) then item.labelText + " [" + item.priority.value + "]" else item.labelText;
    if item.dueDate.Some? then withPriority + " \U{2014} due " + dueFormat(item.dueDate.value) else withPriority
  }

  /** One unchecked to-do per action item, in order. */
  function Todos(items: seq<ActionItem>, dueFormat: int -> string): (bs: seq<Block>)
    ensures |bs| == |items|
  {
    seq(|items|, i requires 0 <= i < |items| => CreateToDo(TodoText(items[i], dueFormat), false))
  }

  /** The summary parsed from markdown, when there is one. */
  function SummarySection(r: Recording): seq<Block> {
    if Given(r.summary) then LineBlocks(SummaryLines(r.summary.value)) else []
  }

  /** A level-3 "Action Items" heading and the to-dos, when there are items. */
  function ActionSection(r: Recording, dueFormat: int -> string): seq<Block> {
    if r.actionItems == [] then []
    else [CreateHeading(ActionItemsHeading, 3, "default")] + Todos(r.actionItems, dueFormat)
  }

  /** The mind-map toggle, when the outline yields any block. */
  function MindMapSection(r: Recording): seq<Block>
    requires DistinctIds(r.mindMap)
  {
    if r.mindMap == [] || MindMapBlocks(r.mindMap) == [] then []
    else [CreateToggle(MindMapTitle, MindMapBlocks(r.mindMap))]
  }

  /** The first 500 characters of the transcript, and "..." when it is longer. */
  function TranscriptPreview(t: string): (p: string)
    ensures |p| <= PreviewLength + 3
    ensures |t| <= PreviewLength ==> p == t
    ensures |t| > PreviewLength ==>
      |p| == PreviewLength + 3 && p[..PreviewLength] == t[..PreviewLength] && p[PreviewLength..] == "..."
  {
    if |t| > PreviewLength then t[..PreviewLength] + "..." else t
  }

  predicate HasDuration(r: Recording) {
    r.durationSeconds.Some? && r.durationSeconds.value != 0
  }

  function DurationPart(r: Recording): seq<Block> {
    if HasDuration(r) then [CreateBullet(FormatDuration(r.durationSeconds.value), Some("Duration"))] else []
  }

  function CapturedPart(r: Recording, capturedFormat: int -> string): seq<Block> {
    if r.createdAt.Some? then [CreateBullet(capturedFormat(r.createdAt.value), Some("Captured"))] else []
  }

  function LinkPart(r: Recording): seq<Block> {
    if Given(r.pocketUrl) then [CreateParagraph(PocketLinkText, r.pocketUrl, "blue")] else []
  }

  function TranscriptPart(r: Recording): seq<Block> {
    if Given(r.transcript)
    then [CreateToggle(TranscriptTitle, [CreateParagraph(TranscriptPreview(r.transcript.value), None, "default")])]
    else []
  }

  /** The source details: duration, capture time, link and transcript, each
      only when the recording has it. */
  function SourceChildren(r: Recording, capturedFormat: int -> string): seq<Block> {
    DurationPart(r) + CapturedPart(r, capturedFormat) + LinkPart(r) + TranscriptPart(r)
  }

  function SourceSection(r: Recording, capturedFormat: int -> string): seq<Block> {
    var details := SourceChildren(r, capturedFormat);
    if details == [] then [] else [CreateToggle(SourceDetailsTitle, details)]
  }

  /** The page body: summary, action items, mind map, a divider, source details. */
  function PageBody(r: Recording, dueFormat: int -> string, capturedFormat: int -> string): seq<Block>
    requires DistinctIds(r.mindMap)
  {
    SummarySection(r) + ActionSection(r, dueFormat) + MindMapSection(r)
    + [CreateDivider()] + SourceSection(r, capturedFormat)
  }

  /** `to_notion_children`, with the date renderings passed in. */
  method ToNotionChildren(r: Recording, dueFormat: int -> string, capturedFormat: int -> string)
    returns (children: seq<Block>)
    requires DistinctIds(r.mindMap)
    ensures children == PageBody(r, dueFormat, capturedFormat)
  {
    children := SummaryBlocks(r);
    var actionBlocks := ActionBlocks(r, dueFormat);
    children := children + actionBlocks;
    var mindMapBlocks := MindMapToggle(r);
    children := children + mindMapBlocks;
    children := children + [CreateDivider()];
    var sourceChildren := SourceDetails(r, capturedFormat);
    if sourceChildren != [] {
      children := children + [CreateToggle(SourceDetailsTitle, sourceChildren)];
    }
  }

  method SummaryBlocks(r: Recording) returns (blocks: seq<Block>)
    ensures blocks == SummarySection(r)
  {
    blocks := [];
    if Given(r.summary) {
      blocks := ParseMarkdownToBlocks(r.summary.value);
    }
  }

  method ActionBlocks(r: Recording, dueFormat: int -> string) returns (blocks: seq<Block>)
    ensures blocks == ActionSection(r, dueFormat)
  {
    blocks := [];
    if r.actionItems != [] {
      var todoBlocks := TodoBlocks(r.actionItems, dueFormat);
      blocks := [CreateHeading(ActionItemsHeading, 3, "default")] + todoBlocks;
    }
  }

  method MindMapToggle(r: Recording) returns (blocks: seq<Block>)
    requires DistinctIds(r.mindMap)
    ensures blocks == MindMapSection(r)
  {
    blocks := [];
    if r.mindMap != [] {
      var mindMapBlocks := BuildMindMapTree(r.mindMap);
      if mindMapBlocks != [] {
        blocks := [CreateToggle(MindMapTitle, mindMapBlocks)];
      }
    }
  }

  /** The to-do loop over the action items. */
  method TodoBlocks(items: seq<ActionItem>, dueFormat: int -> string) returns (todoBlocks: seq<Block>)
    ensures todoBlocks == Todos(items, dueFormat)
  {
    todoBlocks := [];
    var k := 0;
    while k < |items|
      invariant 0 <= k <= |items|
      invariant todoBlocks == Todos(items[..k], dueFormat)
    {
      TodosAppend(items, k, dueFormat);
      todoBlocks := todoBlocks + [CreateToDo(TodoText(items[k], dueFormat), false)];
      k := k + 1;
    }
    assert items[..k] == items;
  }

  /** The source-details list, appended item by item. */
  method SourceDetails(r: Recording, capturedFormat: int -> string) returns (details: seq<Block>)
    ensures details == SourceChildren(r, capturedFormat)
  {
    details := [];
    if HasDuration(r) {
      details := details + [CreateBullet(FormatDuration(r.durationSeconds.value), Some("Duration"))];
    }
    assert details == DurationPart(r);
    if r.createdAt.Some? {
      details := details + [CreateBullet(capturedFormat(r.createdAt.value), Some("Captured"))];
    }
    assert details == DurationPart(r) + CapturedPart(r, capturedFormat);
    if Given(r.pocketUrl) {
      details := details + [CreateParagraph(PocketLinkText, r.pocketUrl, "blue")];
    }
    assert details == DurationPart(r) + CapturedPart(r, capturedFormat) + LinkPart(r);
    if Given(r.transcript) {
      var preview := TranscriptPreview(r.transcript.value);
      details := details + [CreateToggle(TranscriptTitle, [CreateParagraph(preview, None, "default")])];
    }
  }

  lemma TodosAppend(items: seq<ActionItem>, k: nat, dueFormat: int -> string)
    requires k < |items|
    ensures Todos(items[..k + 1], dueFormat) == Todos(items[..k], dueFormat) + [CreateToDo(TodoText(items[k], dueFormat), false)]
  {
    assert items[..k + 1][k] == items[k];
    assert forall i :: 0 <= i < k ==> items[..k + 1][i] == items[..k][i];
  }

  predicate NoDivider(bs: seq<Block>) {
    forall i :: 0 <= i < |bs| ==> !bs[i].Divider?
  }

  /** A summary never yields a divider. */
  lemma {:induction false} LineBlocksNoDivider(lines: seq<string>)
    ensures NoDivider(LineBlocks(lines))
  {
    if lines != [] {
      LineBlocksNoDivider(lines[1..]);
      PresentNoDivider(LineBlock(lines[0]));
      NoDividerConcat(Present(LineBlock(lines[0])), LineBlocks(lines[1..]));
    }
  }

  lemma PresentNoDivider(o: Option<Block>)
    requires o.Some? ==> o.value.Heading? || o.value.Bullet? || o.value.Paragraph?
    ensures NoDivider(Present(o))
  {
  }

  /** A divider between two divider-free runs is the only one. */
  lemma OnlyDivider(pre: seq<Block>, post: seq<Block>)
    requires NoDivider(pre) && NoDivider(post)
    ensures var b := pre + [Divider] + post;
      b[|pre|].Divider? && forall i :: 0 <= i < |b| && i != |pre| ==> !b[i].Divider?
  {
    var b := pre + [Divider] + post;
    forall i | 0 <= i < |b| && i != |pre| ensures !b[i].Divider? {
      if i < |pre| {
        assert b[i] == pre[i];
      } else {
        assert b[i] == post[i - |pre| - 1];
      }
    }
  }

  lemma NoDividerConcat(x: seq<Block>, y: seq<Block>)
    requires NoDivider(x) && NoDivider(y)
    ensures NoDivider(x + y)
  {
    var xy := x + y;
    forall i | 0 <= i < |xy| ensures !xy[i].Divider? {
      if i >= |x| {
        assert xy[i] == y[i - |x|];
      }
    }
  }

  lemma SummaryNoDivider(r: Recording)
    ensures NoDivider(SummarySection(r))
  {
    if Given(r.summary) {
      LineBlocksNoDivider(SummaryLines(r.summary.value));
    }
  }

  lemma ActionNoDivider(r: Recording, dueFormat: int -> string)
    ensures NoDivider(ActionSection(r, dueFormat))
  {
    if r.actionItems != [] {
      var todos := Todos(r.actionItems, dueFormat);
      var a := [CreateHeading(ActionItemsHeading, 3, "default")] + todos;
      forall i | 0 <= i < |a| ensures !a[i].Divider? {
        if i > 0 {
          assert a[i] == todos[i - 1];
        }
      }
    }
  }

  lemma MindMapNoDivider(r: Recording)
    requires DistinctIds(r.mindMap)
    ensures NoDivider(MindMapSection(r))
  {
  }

  /** The sections before the divider hold none. */
  lemma SectionsNoDivider(r: Recording, dueFormat: int -> string)
    requires DistinctIds(r.mindMap)
    ensures NoDivider(SummarySection(r) + ActionSection(r, dueFormat) + MindMapSection(r))
  {
    SummaryNoDivider(r);
    ActionNoDivider(r, dueFormat);
    MindMapNoDivider(r);
    NoDividerConcat(SummarySection(r), ActionSection(r, dueFormat));
    NoDividerConcat(SummarySection(r) + ActionSection(r, dueFormat), MindMapSection(r));
  }

  /** The body's fixed layout: exactly one divider, placed after the summary,
      the heading and one to-do per action item, and the mind-map toggle; then
      the source toggle, present exactly when the recording has a non-zero
      duration, a capture time, a link or a transcript. */
  lemma PageBodyLayout(r: Recording, dueFormat: int -> string, capturedFormat: int -> string)
    requires DistinctIds(r.mindMap)
    ensures var body := PageBody(r, dueFormat, capturedFormat);
      var d := |SummarySection(r)| + |ActionSection(r, dueFormat)| + |MindMapSection(r)|;
      d < |body| && body[d].Divider?
      && (forall i :: 0 <= i < |body| && i != d ==> !body[i].Divider?)
      && |ActionSection(r, dueFormat)| == (if r.actionItems == [] then 0 else |r.actionItems| + 1)
      && |MindMapSection(r)| <= 1
      && (|body| == d + 2 <==>
          HasDuration(r) || r.createdAt.Some? || Given(r.pocketUrl) || Given(r.transcript))
      && |body| <= d + 2
  {
    var pre := SummarySection(r) + ActionSection(r, dueFormat) + MindMapSection(r);
    var src := SourceSection(r, capturedFormat);
    SectionsNoDivider(r, dueFormat);
    assert NoDivider(src);
    OnlyDivider(pre, src);
    assert PageBody(r, dueFormat, capturedFormat) == pre + [Divider] + src;
    var details := SourceChildren(r, capturedFormat);
    assert details != [] <==> HasDuration(r) || r.createdAt.Some? || Given(r.pocketUrl) || Given(r.transcript);
  }

  /** The action items come out as to-dos in order, each starting with its
      label, right after the heading. */
  lemma ActionSectionTodos(r: Recording, dueFormat: int -> string, i: nat)
    requires i < |r.actionItems|
    ensures var a := ActionSection(r, dueFormat);
      a[0] == Heading(3, [Plain(ActionItemsHeading)], "default")
      && a[i + 1].ToDo? && !a[i + 1].checked
      && a[i + 1].text == [Plain(TodoText(r.actionItems[i], dueFormat))]
  {
    var todos := Todos(r.actionItems, dueFormat);
    var a := [CreateHeading(ActionItemsHeading, 3, "default")] + todos;
    assert ActionSection(r, dueFormat) == a;
    assert a[i + 1] == todos[i] == CreateToDo(TodoText(r.actionItems[i], dueFormat), false);
  }

  // ---------------------------------------------------------------------
  // The tally of a sync pass
  // ---------------------------------------------------------------------

  datatype SyncResult = SyncResult(created: nat, skipped: nat, pending: nat, failed: nat, errors: seq<string>)

  const EmptyResult := SyncResult(0, 0, 0, 0, [])

  function Total(res: SyncResult): nat {
    res.created + res.skipped + res.pending + res.failed
  }

  /** The captions and counts of the one-line report: created and skipped
      always, pending and failed only when non-zero. */
  function ReportEntries(res: SyncResult): (e: seq<(string, nat)>)
    ensures 2 <= |e| <= 4
  {
    [("Created: ", res.created), ("Skipped: ", res.skipped)]
    + (if res.pending > 0 then [("Pending: ", res.pending)] else [])
    + (if res.failed > 0 then [("Failed: ", res.failed)] else [])
  }

  function ReportParts(res: SyncResult): (parts: seq<string>)
    ensures |parts| == |ReportEntries(res)|
  {
    var e := ReportEntries(res);
    seq(|e|, i requires 0 <= i < |e| => Part(e[i].0, e[i].1))
  }

  function Part(caption: string, n: nat): string {
    caption + NatToString(n)
  }

  /** A part starts with its own caption, and with no caption of another initial. */
  lemma PartStarts(caption: string, n: nat, q: string)
    requires |caption| >= 1 && |q| >= 1
    ensures q == caption ==> StartsWith(Part(caption, n), q)
    ensures caption[0] != q[0] ==> !StartsWith(Part(caption, n), q)
  {
    var s := Part(caption, n);
    assert s[..|caption|] == caption;
    assert s[0] == caption[0];
    if |q| <= |s| {
      assert s[..|q|][0] == s[0];
    }
  }

  /** `", ".join(parts)` */
  function JoinComma(parts: seq<string>): string {
    if |parts| <= 1 then (if parts == [] then "" else parts[0])
    else parts[0] + ", " + JoinComma(parts[1..])
  }

  /** `str(result)` */
  function Report(res: SyncResult): (s: string)
    ensures StartsWith(s, "Created: ")
  {
    var parts := ReportParts(res);
    assert JoinComma(parts) == parts[0] + ", " + JoinComma(parts[1..]);
    JoinComma(parts)
  }

  /** A report part names pending or failed recordings exactly when there are
      some, and the counts come in the order created, skipped, pending, failed. */
  lemma ReportPartsShown(res: SyncResult)
    ensures var parts := ReportParts(res);
      parts[0] == "Created: " + NatToString(res.created)
      && parts[1] == "Skipped: " + NatToString(res.skipped)
      && ((exists i :: 0 <= i < |parts| && StartsWith(parts[i], "Pending: ")) <==> res.pending > 0)
      && ((exists i :: 0 <= i < |parts| && StartsWith(parts[i], "Failed: ")) <==> res.failed > 0)
      && |parts| == 2 + (if res.pending > 0 then 1 else 0) + (if res.failed > 0 then 1 else 0)
  {
    var e := ReportEntries(res);
    EntriesCaptions(res);
    PartsStart(res, "Pending: ");
    PartsStart(res, "Failed: ");
  }

  /** Which captions the report carries. */
  lemma EntriesCaptions(res: SyncResult)
    ensures var e := ReportEntries(res);
      e[0] == ("Created: ", res.created) && e[1] == ("Skipped: ", res.skipped)
      && ((exists i :: 0 <= i < |e| && e[i].0 == "Pending: ") <==> res.pending > 0)
      && ((exists i :: 0 <= i < |e| && e[i].0 == "Failed: ") <==> res.failed > 0)
      && (forall i :: 0 <= i < |e| ==> |e[i].0| >= 1 && e[i].0[0] in "CSPF")
      && (forall i :: 0 <= i < |e| ==> (e[i].0[0] == 'P' <==> e[i].0 == "Pending: "))
      && (forall i :: 0 <= i < |e| ==> (e[i].0[0] == 'F' <==> e[i].0 == "Failed: "))
      && |e| == 2 + (if res.pending > 0 then 1 else 0) + (if res.failed > 0 then 1 else 0)
  {
    var e := ReportEntries(res);
    if res.pending > 0 {
      assert e[2].0 == "Pending: ";
    }
    if res.failed > 0 {
      assert e[|e| - 1].0 == "Failed: ";
    }
  }

  lemma PartsStart(res: SyncResult, q: string)
    requires q == "Pending: " || q == "Failed: "
    ensures var e := ReportEntries(res);
      forall i :: 0 <= i < |e| ==> (StartsWith(ReportParts(res)[i], q) <==> e[i].0 == q)
  {
    var e := ReportEntries(res);
    EntriesCaptions(res);
    forall i | 0 <= i < |e| ensures StartsWith(ReportParts(res)[i], q) <==> e[i].0 == q {
      PartStarts(e[i].0, e[i].1, q);
    }
  }
}
