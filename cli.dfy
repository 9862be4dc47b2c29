/**
 * The command-line front end: how `setup` turns the chosen database's
 * schema into the property map it saves, how a failed key check is
 * explained to the user, the exit code of `sync`, and how `main` picks a
 * command.
 *
 * Prompts, printing and the database-selection loop are not modelled; the
 * outcome of each API call is a parameter.
 */
module Cli {
  import opened Text
  import opened Json
  import opened Reliability
  import opened Models
  import opened Configuration
  import Sync
  import Daemon

  // ---------------------------------------------------------------------
  // Schema analysis (cmd_setup, steps 7 to 9)
  // ---------------------------------------------------------------------

  /** `{name: prop.get("type")}` for the database's properties. */
  type Schema = seq<(string, Option<string>)>

  /** `schema_names[name]` where `name in schema_names`, flattened. */
  function TypeOf(schema: Schema, name: string): Option<string> {
    match Lookup(schema, name)
    case None => None
    case Some(t) => t
  }

  /** `name in schema_names and schema_names[name] == ty` */
  predicate HasType(schema: Schema, name: string, ty: string) {
    TypeOf(schema, name) == Some(ty)
  }

  const DueNames := ["Due Date", "Due", "DueDate"]
  const PocketIdNames := ["Inbox ID", "pocket_id", "Pocket ID", "Source ID"]
  const ContextNames := ["Next step", "Notes", "Description", "Details"]
  const SourceNames := ["Source", "URL", "Link", "Recording"]
  const TagNames := ["Tags", "Labels", "Categories"]

  /** The first candidate the schema holds with type `ty`. */
  function FirstOfType(schema: Schema, names: seq<string>, ty: string): Option<string> {
    if names == [] then None
    else if HasType(schema, names[0], ty) then Some(names[0])
    else FirstOfType(schema, names[1..], ty)
  }

  /** The search finds a candidate of the right type exactly when there is
      one, and then the first. */
  lemma {:induction false} FirstOfTypeFinds(schema: Schema, names: seq<string>, ty: string)
    ensures var r := FirstOfType(schema, names, ty);
            (r.None? <==> forall k :: 0 <= k < |names| ==> !HasType(schema, names[k], ty))
            && (r.Some? ==> exists k :: 0 <= k < |names| && names[k] == r.value && HasType(schema, names[k], ty)
                                        && forall j :: 0 <= j < k ==> !HasType(schema, names[j], ty))
    decreases |names|
  {
    if names != [] && !HasType(schema, names[0], ty) {
      var tail := names[1..];
      FirstOfTypeFinds(schema, tail, ty);
      assert forall k :: 1 <= k < |names| ==> names[k] == tail[k - 1];
      var r := FirstOfType(schema, tail, ty);
      if r.Some? {
        var k :| 0 <= k < |tail| && tail[k] == r.value && HasType(schema, tail[k], ty)
                 && forall j :: 0 <= j < k ==> !HasType(schema, tail[j], ty);
        assert names[k + 1] == r.value;
        forall j | 0 <= j < k + 1 ensures !HasType(schema, names[j], ty) {
          if j > 0 { assert names[j] == tail[j - 1]; }
        }
      }
    } else if names != [] {
      assert names[0] == names[0];
    }
  }

  /** One `for name in [...]: if ...: break` search. */
  method FindField(schema: Schema, names: seq<string>, ty: string) returns (found: Option<string>)
    ensures found == FirstOfType(schema, names, ty)
  {
    found := None;
    var i := 0;
    while i < |names|
      invariant 0 <= i <= |names|
      invariant FirstOfType(schema, names, ty) == FirstOfType(schema, names[i..], ty)
    {
      assert names[i..][1..] == names[i + 1..];
      if HasType(schema, names[i], ty) {
        found := Some(names[i]);
        return;
      }
      i := i + 1;
    }
    assert names[i..] == [];
  }

  /** An entry of `existing_mappings` or `to_create`: the Pocket-side
      field, the Notion property and either "existing" or the type to
      create. */
  datatype Mapping = Mapping(pocketField: string, notionField: string, kind: string)

  const TitleMapping := Mapping("Action Item", "Name", "existing")

  /** The entry a successful search adds to `existing_mappings`. */
  function Found(field: string, found: Option<string>): seq<Mapping> {
    if found.Some? then [Mapping(field, found.value, "existing")] else []
  }

  /** The entry a failed search adds to `to_create`. */
  function Missing(field: string, name: string, ty: string, found: Option<string>): seq<Mapping> {
    if found.None? then [Mapping(field, name, ty)] else []
  }

  /** The entry the `Priority` check adds to `existing_mappings`. */
  function PriorityFound(schema: Schema): seq<Mapping> {
    if HasType(schema, "Priority", "select") then [Mapping("Priority", "Priority", "existing")] else []
  }

  /** `existing_mappings` once each search has found what it found. */
  function ExistingFrom(priority: seq<Mapping>, due: Option<string>, pocketId: Option<string>,
                        context: Option<string>, source: Option<string>, tags: Option<string>): seq<Mapping> {
    [TitleMapping] + priority + Found("Due Date", due) + Found("pocket_id", pocketId)
    + Found("Context", context) + Found("Source", source) + Found("Tags", tags)
  }

  /** `to_create` once each search has found what it found. */
  function ToCreateFrom(pocketId: Option<string>, context: Option<string>, source: Option<string>,
                        tags: Option<string>): seq<Mapping> {
    Missing("pocket_id", "Inbox ID", "rich_text", pocketId)
    + Missing("Context", "Action Context", "rich_text", context)
    + Missing("Source", "Source", "url", source)
    + Missing("Tags", "Tags", "multi_select", tags)
  }

  function ExistingOf(schema: Schema): seq<Mapping> {
    ExistingFrom(PriorityFound(schema), FirstOfType(schema, DueNames, "date"),
                 FirstOfType(schema, PocketIdNames, "rich_text"), FirstOfType(schema, ContextNames, "rich_text"),
                 FirstOfType(schema, SourceNames, "url"), FirstOfType(schema, TagNames, "multi_select"))
  }

  function ToCreateOf(schema: Schema): seq<Mapping> {
    ToCreateFrom(FirstOfType(schema, PocketIdNames, "rich_text"), FirstOfType(schema, ContextNames, "rich_text"),
                 FirstOfType(schema, SourceNames, "url"), FirstOfType(schema, TagNames, "multi_select"))
  }

  /** The two lists `cmd_setup` builds from the schema. */
  method PlanMapping(schema: Schema) returns (existing: seq<Mapping>, toCreate: seq<Mapping>)
    ensures existing == ExistingOf(schema)
    ensures toCreate == ToCreateOf(schema)
  {
    existing := [TitleMapping];
    toCreate := [];
    if HasType(schema, "Priority", "select") {
      existing := existing + [Mapping("Priority", "Priority", "existing")];
    }
    assert existing == [TitleMapping] + PriorityFound(schema);
    var due := FindField(schema, DueNames, "date");
    existing := existing + Found("Due Date", due);
    var pocketId := FindField(schema, PocketIdNames, "rich_text");
    existing := existing + Found("pocket_id", pocketId);
    toCreate := toCreate + Missing("pocket_id", "Inbox ID", "rich_text", pocketId);
    var context := FindField(schema, ContextNames, "rich_text");
    existing := existing + Found("Context", context);
    toCreate := toCreate + Missing("Context", "Action Context", "rich_text", context);
    var source := FindField(schema, SourceNames, "url");
    existing := existing + Found("Source", source);
    toCreate := toCreate + Missing("Source", "Source", "url", source);
    var tags := FindField(schema, TagNames, "multi_select");
    existing := existing + Found("Tags", tags);
    toCreate := toCreate + Missing("Tags", "Tags", "multi_select", tags);
    assert existing == ExistingFrom(PriorityFound(schema), due, pocketId, context, source, tags);
    assert toCreate == ToCreateFrom(pocketId, context, source, tags) by {
      assert [] + Missing("pocket_id", "Inbox ID", "rich_text", pocketId) == Missing("pocket_id", "Inbox ID", "rich_text", pocketId);
    }
  }

  /** `field_mapping`: the configuration key each Pocket-side field fills. */
  function FieldKey(field: string): Option<string> {
    if field == "Priority" then Some("priority")
    else if field == "Due Date" then Some("due_date")
    else if field == "pocket_id" then Some("pocket_id")
    else if field == "Context" then Some("context")
    else if field == "Source" then Some("source_url")
    else if field == "Tags" then Some("tags")
    else None
  }

  /** `property_map[field_mapping[f]] = n` for each entry in turn. */
  function Assign(pm: PropertyMap, ms: seq<Mapping>): PropertyMap
    decreases |ms|
  {
    if ms == [] then pm
    else
      var prev := Assign(pm, ms[..|ms| - 1]);
      var m := ms[|ms| - 1];
      match FieldKey(m.pocketField)
      case None => prev
      case Some(k) => Set(prev, k, m.notionField)
  }

  /** The property map `cmd_setup` saves, `pocket_id` fallback included. */
  function PropertyMapOf(existing: seq<Mapping>, toCreate: seq<Mapping>): PropertyMap {
    var pm := Assign(Assign([("title", "Name")], existing), toCreate);
    if HasKey(pm, "pocket_id") then pm
    else Set(pm, "pocket_id", if toCreate != [] then toCreate[0].notionField else "Inbox ID")
  }

  method AssignAll(pm: PropertyMap, ms: seq<Mapping>) returns (r: PropertyMap)
    ensures r == Assign(pm, ms)
  {
    r := pm;
    for i := 0 to |ms|
      invariant r == Assign(pm, ms[..i])
    {
      assert ms[..i + 1][..i] == ms[..i];
      var key := FieldKey(ms[i].pocketField);
      if key.Some? {
        r := Set(r, key.value, ms[i].notionField);
      }
    }
    assert ms[..|ms|] == ms;
  }

  /** Step 9 of `cmd_setup`. */
  method BuildPropertyMap(existing: seq<Mapping>, toCreate: seq<Mapping>) returns (pm: PropertyMap)
    ensures pm == PropertyMapOf(existing, toCreate)
  {
    pm := AssignAll([("title", "Name")], existing);
    pm := AssignAll(pm, toCreate);
    if !HasKey(pm, "pocket_id") {
      pm := Set(pm, "pocket_id", if toCreate != [] then toCreate[0].notionField else "Inbox ID");
    }
  }

  /** Steps 7 to 9 of `cmd_setup` once the user accepted the creations. */
  method DeriveSetup(schema: Schema) returns (toCreate: seq<Mapping>, pm: PropertyMap)
    ensures toCreate == ToCreateOf(schema)
    ensures pm == DerivePropertyMap(schema)
  {
    var existing;
    existing, toCreate := PlanMapping(schema);
    pm := BuildPropertyMap(existing, toCreate);
  }

  function DerivePropertyMap(schema: Schema): PropertyMap {
    PropertyMapOf(ExistingOf(schema), ToCreateOf(schema))
  }

  /** `found or default` */
  function OrDefault(found: Option<string>, default: string): string {
    if found.Some? then found.value else default
  }

  /** The configuration keys `cmd_setup` can write. */
  predicate IsMappedKey(key: string) {
    key == "title" || key == "priority" || key == "due_date" || key == "pocket_id"
    || key == "context" || key == "source_url" || key == "tags"
  }

  /** What the derived property map holds for `key`. */
  function Expected(schema: Schema, key: string): Option<string> {
    if key == "title" then Some("Name")
    else if key == "priority" then
      (if HasType(schema, "Priority", "select") then Some("Priority") else None)
    else if key == "due_date" then FirstOfType(schema, DueNames, "date")
    else if key == "pocket_id" then Some(OrDefault(FirstOfType(schema, PocketIdNames, "rich_text"), "Inbox ID"))
    else if key == "context" then Some(OrDefault(FirstOfType(schema, ContextNames, "rich_text"), "Action Context"))
    else if key == "source_url" then Some(OrDefault(FirstOfType(schema, SourceNames, "url"), "Source"))
    else if key == "tags" then Some(OrDefault(FirstOfType(schema, TagNames, "multi_select"), "Tags"))
    else None
  }

  /** The property the last entry for `key` names, if any entry fills it. */
  function LastFor(ms: seq<Mapping>, key: string): Option<string>
    decreases |ms|
  {
    if ms == [] then None
    else if FieldKey(ms[|ms| - 1].pocketField) == Some(key) then Some(ms[|ms| - 1].notionField)
    else LastFor(ms[..|ms| - 1], key)
  }

  lemma {:induction false} LookupAssign(pm: PropertyMap, ms: seq<Mapping>, key: string)
    ensures Lookup(Assign(pm, ms), key) == if LastFor(ms, key).Some? then LastFor(ms, key) else Lookup(pm, key)
    decreases |ms|
  {
    if ms != [] {
      var m := ms[|ms| - 1];
      LookupAssign(pm, ms[..|ms| - 1], key);
      match FieldKey(m.pocketField)
      case None =>
      case Some(k) => LookupSet(Assign(pm, ms[..|ms| - 1]), k, m.notionField, key);
    }
  }

  lemma {:induction false} LastForConcat(a: seq<Mapping>, b: seq<Mapping>, key: string)
    ensures LastFor(a + b, key) == if LastFor(b, key).Some? then LastFor(b, key) else LastFor(a, key)
    decreases |b|
  {
    if b == [] {
      assert a + b == a;
    } else {
      assert (a + b)[..|a + b| - 1] == a + b[..|b| - 1];
      LastForConcat(a, b[..|b| - 1], key);
    }
  }

  lemma LastForFound(field: string, found: Option<string>, key: string)
    ensures LastFor(Found(field, found), key) == if FieldKey(field) == Some(key) then found else None
  {
    if found.Some? {
      assert Found(field, found)[..0] == [];
    }
  }

  lemma LastForMissing(field: string, name: string, ty: string, found: Option<string>, key: string)
    ensures LastFor(Missing(field, name, ty, found), key)
            == if FieldKey(field) == Some(key) && found.None? then Some(name) else None
  {
    if found.None? {
      assert Missing(field, name, ty, found)[..0] == [];
    }
  }

  /** What `existing_mappings` assigns to `key`. */
  function ExistingFor(schema: Schema, key: string): Option<string> {
    if key == "priority" then
      (if HasType(schema, "Priority", "select") then Some("Priority") else None)
    else if key == "due_date" then FirstOfType(schema, DueNames, "date")
    else if key == "pocket_id" then FirstOfType(schema, PocketIdNames, "rich_text")
    else if key == "context" then FirstOfType(schema, ContextNames, "rich_text")
    else if key == "source_url" then FirstOfType(schema, SourceNames, "url")
    else if key == "tags" then FirstOfType(schema, TagNames, "multi_select")
    else None
  }

  lemma LastForExisting(schema: Schema, key: string)
    ensures LastFor(ExistingOf(schema), key) == ExistingFor(schema, key)
  {
    var p := PriorityFound(schema);
    var d := FirstOfType(schema, DueNames, "date");
    var i := FirstOfType(schema, PocketIdNames, "rich_text");
    var c := FirstOfType(schema, ContextNames, "rich_text");
    var s := FirstOfType(schema, SourceNames, "url");
    var t := FirstOfType(schema, TagNames, "multi_select");
    var x1 := [TitleMapping] + p;
    var x2 := x1 + Found("Due Date", d);
    var x3 := x2 + Found("pocket_id", i);
    var x4 := x3 + Found("Context", c);
    var x5 := x4 + Found("Source", s);
    assert ExistingOf(schema) == x5 + Found("Tags", t);
    LastForConcat(x5, Found("Tags", t), key);
    LastForFound("Tags", t, key);
    LastForConcat(x4, Found("Source", s), key);
    LastForFound("Source", s, key);
    LastForConcat(x3, Found("Context", c), key);
    LastForFound("Context", c, key);
    LastForConcat(x2, Found("pocket_id", i), key);
    LastForFound("pocket_id", i, key);
    LastForConcat(x1, Found("Due Date", d), key);
    LastForFound("Due Date", d, key);
    LastForConcat([TitleMapping], p, key);
    assert LastFor([TitleMapping], key) == None by {
      assert [TitleMapping][..0] == [];
    }
    if p != [] {
      assert p[..0] == [];
    }
  }

  /** What `to_create` assigns to `key`. */
  function CreatedFor(schema: Schema, key: string): Option<string> {
    if key == "pocket_id" && FirstOfType(schema, PocketIdNames, "rich_text").None? then Some("Inbox ID")
    else if key == "context" && FirstOfType(schema, ContextNames, "rich_text").None? then Some("Action Context")
    else if key == "source_url" && FirstOfType(schema, SourceNames, "url").None? then Some("Source")
    else if key == "tags" && FirstOfType(schema, TagNames, "multi_select").None? then Some("Tags")
    else None
  }

  lemma LastForCreated(schema: Schema, key: string)
    ensures LastFor(ToCreateOf(schema), key) == CreatedFor(schema, key)
  {
    var i := FirstOfType(schema, PocketIdNames, "rich_text");
    var c := FirstOfType(schema, ContextNames, "rich_text");
    var s := FirstOfType(schema, SourceNames, "url");
    var t := FirstOfType(schema, TagNames, "multi_select");
    var y1 := Missing("pocket_id", "Inbox ID", "rich_text", i);
    var y2 := y1 + Missing("Context", "Action Context", "rich_text", c);
    var y3 := y2 + Missing("Source", "Source", "url", s);
    assert ToCreateOf(schema) == y3 + Missing("Tags", "Tags", "multi_select", t);
    LastForConcat(y3, Missing("Tags", "Tags", "multi_select", t), key);
    LastForMissing("Tags", "Tags", "multi_select", t, key);
    LastForConcat(y2, Missing("Source", "Source", "url", s), key);
    LastForMissing("Source", "Source", "url", s, key);
    LastForConcat(y1, Missing("Context", "Action Context", "rich_text", c), key);
    LastForMissing("Context", "Action Context", "rich_text", c, key);
    LastForMissing("pocket_id", "Inbox ID", "rich_text", i, key);
  }

  /** Each key is filled by the searches, by the creations or, for
      `title`, by the starting map, and never by two of them. */
  lemma ExpectedSplit(schema: Schema, key: string)
    ensures Expected(schema, key)
            == if CreatedFor(schema, key).Some? then CreatedFor(schema, key)
               else if ExistingFor(schema, key).Some? then ExistingFor(schema, key)
               else if key == "title" then Some("Name") else None
  {
    if key == "title" {
    } else if key == "priority" {
    } else if key == "due_date" {
    } else if key == "pocket_id" {
    } else if key == "context" {
    } else if key == "source_url" {
    } else if key == "tags" {
    }
  }

  /** Before the fallback, the map already holds every key it will hold. */
  lemma AssignedLookup(schema: Schema, key: string)
    ensures Lookup(Assign(Assign([("title", "Name")], ExistingOf(schema)), ToCreateOf(schema)), key)
            == Expected(schema, key)
  {
    var base: PropertyMap := [("title", "Name")];
    var mid := Assign(base, ExistingOf(schema));
    assert Lookup(base, key) == (if key == "title" then Some("Name") else None) by {
      assert base[..0] == [];
    }
    assert Lookup(mid, key) == if ExistingFor(schema, key).Some? then ExistingFor(schema, key) else Lookup(base, key) by {
      LookupAssign(base, ExistingOf(schema), key);
      LastForExisting(schema, key);
    }
    assert Lookup(Assign(mid, ToCreateOf(schema)), key)
           == if CreatedFor(schema, key).Some? then CreatedFor(schema, key) else Lookup(mid, key) by {
      LookupAssign(mid, ToCreateOf(schema), key);
      LastForCreated(schema, key);
    }
    ExpectedSplit(schema, key);
  }

  /**
   * The property map `setup` saves: `title` is always "Name"; `pocket_id`,
   * `context`, `source_url` and `tags` always point at the first candidate
   * of the right type or else at the property created for them;
   * `priority` and `due_date` appear only when the database already has a
   * property of the right type; nothing else is written.
   */
  lemma MappingRules(schema: Schema, key: string)
    ensures Lookup(DerivePropertyMap(schema), key) == Expected(schema, key)
    ensures Expected(schema, key).Some? <==> IsMappedKey(key) && (key == "priority" ==> HasType(schema, "Priority", "select"))
                                                              && (key == "due_date" ==> FirstOfType(schema, DueNames, "date").Some?)
  {
    AssignedLookup(schema, key);
    AssignedLookup(schema, "pocket_id");
    ExpectedKeys(schema, key);
  }

  lemma ExpectedKeys(schema: Schema, key: string)
    ensures Expected(schema, key).Some? <==> IsMappedKey(key) && (key == "priority" ==> HasType(schema, "Priority", "select"))
                                                              && (key == "due_date" ==> FirstOfType(schema, DueNames, "date").Some?)
  {
    if key == "title" {
    } else if key == "priority" {
    } else if key == "due_date" {
    } else if key == "pocket_id" {
    } else if key == "context" {
    } else if key == "source_url" {
    } else if key == "tags" {
    }
  }

  /** The `if "pocket_id" not in property_map` fallback never fires. */
  lemma PocketIdFallbackUnused(schema: Schema)
    ensures HasKey(Assign(Assign([("title", "Name")], ExistingOf(schema)), ToCreateOf(schema)), "pocket_id")
  {
    AssignedLookup(schema, "pocket_id");
  }

  /** `priority` and `due_date` are never scheduled for creation; every
      other key is created exactly when no candidate has the right type. */
  lemma CreationRules(schema: Schema, key: string)
    ensures LastFor(ToCreateOf(schema), key).Some? <==>
              (key == "pocket_id" && FirstOfType(schema, PocketIdNames, "rich_text").None?)
              || (key == "context" && FirstOfType(schema, ContextNames, "rich_text").None?)
              || (key == "source_url" && FirstOfType(schema, SourceNames, "url").None?)
              || (key == "tags" && FirstOfType(schema, TagNames, "multi_select").None?)
    ensures LastFor(ToCreateOf(schema), key).Some? ==> LastFor(ExistingOf(schema), key).None?
  {
    LastForCreated(schema, key);
    LastForExisting(schema, key);
  }

  // ---------------------------------------------------------------------
  // Running setup twice
  // ---------------------------------------------------------------------

  /** The schema once `create_property` has run for each entry. */
  function AfterCreate(schema: Schema, ms: seq<Mapping>): Schema
    decreases |ms|
  {
    if ms == [] then schema
    else
      var m := ms[|ms| - 1];
      Set(AfterCreate(schema, ms[..|ms| - 1]), m.notionField, Some(m.kind))
  }

  /** The type the last creation of `name` gives it. */
  function CreatedType(ms: seq<Mapping>, name: string): Option<string>
    decreases |ms|
  {
    if ms == [] then None
    else if ms[|ms| - 1].notionField == name then Some(ms[|ms| - 1].kind)
    else CreatedType(ms[..|ms| - 1], name)
  }

  lemma {:induction false} TypeAfterCreate(schema: Schema, ms: seq<Mapping>, name: string)
    ensures TypeOf(AfterCreate(schema, ms), name)
            == if CreatedType(ms, name).Some? then CreatedType(ms, name) else TypeOf(schema, name)
    decreases |ms|
  {
    if ms != [] {
      var m := ms[|ms| - 1];
      TypeAfterCreate(schema, ms[..|ms| - 1], name);
      LookupSet(AfterCreate(schema, ms[..|ms| - 1]), m.notionField, Some(m.kind), name);
    }
  }

  lemma {:induction false} CreatedTypeConcat(a: seq<Mapping>, b: seq<Mapping>, name: string)
    ensures CreatedType(a + b, name) == if CreatedType(b, name).Some? then CreatedType(b, name) else CreatedType(a, name)
    decreases |b|
  {
    if b == [] {
      assert a + b == a;
    } else {
      assert (a + b)[..|a + b| - 1] == a + b[..|b| - 1];
      CreatedTypeConcat(a, b[..|b| - 1], name);
    }
  }

  lemma CreatedTypeMissing(field: string, created: string, ty: string, found: Option<string>, name: string)
    ensures CreatedType(Missing(field, created, ty, found), name)
            == if found.None? && created == name then Some(ty) else None
  {
    if found.None? {
      assert Missing(field, created, ty, found)[..0] == [];
    }
  }

  /** The only properties `setup` ever creates. */
  predicate IsCreatedName(name: string) {
    name == "Inbox ID" || name == "Action Context" || name == "Source" || name == "Tags"
  }

  /** The type `setup` gives the property `name` when it creates it. */
  function CreatesFor(schema: Schema, name: string): Option<string> {
    if name == "Inbox ID" && FirstOfType(schema, PocketIdNames, "rich_text").None? then Some("rich_text")
    else if name == "Action Context" && FirstOfType(schema, ContextNames, "rich_text").None? then Some("rich_text")
    else if name == "Source" && FirstOfType(schema, SourceNames, "url").None? then Some("url")
    else if name == "Tags" && FirstOfType(schema, TagNames, "multi_select").None? then Some("multi_select")
    else None
  }

  lemma CreatedTypes(schema: Schema, name: string)
    ensures CreatedType(ToCreateOf(schema), name) == CreatesFor(schema, name)
    ensures CreatesFor(schema, name).Some? ==> IsCreatedName(name)
  {
    var i := FirstOfType(schema, PocketIdNames, "rich_text");
    var c := FirstOfType(schema, ContextNames, "rich_text");
    var s := FirstOfType(schema, SourceNames, "url");
    var t := FirstOfType(schema, TagNames, "multi_select");
    var y1 := Missing("pocket_id", "Inbox ID", "rich_text", i);
    var y2 := y1 + Missing("Context", "Action Context", "rich_text", c);
    var y3 := y2 + Missing("Source", "Source", "url", s);
    assert ToCreateOf(schema) == y3 + Missing("Tags", "Tags", "multi_select", t);
    CreatedTypeConcat(y3, Missing("Tags", "Tags", "multi_select", t), name);
    CreatedTypeMissing("Tags", "Tags", "multi_select", t, name);
    CreatedTypeConcat(y2, Missing("Source", "Source", "url", s), name);
    CreatedTypeMissing("Source", "Source", "url", s, name);
    CreatedTypeConcat(y1, Missing("Context", "Action Context", "rich_text", c), name);
    CreatedTypeMissing("Context", "Action Context", "rich_text", c, name);
    CreatedTypeMissing("pocket_id", "Inbox ID", "rich_text", i, name);
  }

  /** A search whose candidates kept their types finds the same property. */
  lemma {:induction false} FirstOfTypeSame(s1: Schema, s2: Schema, names: seq<string>, ty: string)
    requires forall k :: 0 <= k < |names| ==> TypeOf(s1, names[k]) == TypeOf(s2, names[k])
    ensures FirstOfType(s1, names, ty) == FirstOfType(s2, names, ty)
    decreases |names|
  {
    if names != [] {
      assert TypeOf(s1, names[0]) == TypeOf(s2, names[0]);
      FirstOfTypeSame(s1, s2, names[1..], ty);
    }
  }

  /** A search whose first candidate now has the type finds it. */
  lemma FirstOfTypeHead(schema: Schema, names: seq<string>, ty: string)
    requires names != [] && HasType(schema, names[0], ty)
    ensures FirstOfType(schema, names, ty) == Some(names[0])
  {
  }

  /** A search over candidates none of which `setup` creates is unaffected
      by the creations. */
  lemma SearchUntouched(schema: Schema, names: seq<string>, ty: string)
    requires forall k :: 0 <= k < |names| ==> !IsCreatedName(names[k])
    ensures FirstOfType(AfterCreate(schema, ToCreateOf(schema)), names, ty) == FirstOfType(schema, names, ty)
  {
    var after := AfterCreate(schema, ToCreateOf(schema));
    forall k | 0 <= k < |names|
      ensures TypeOf(after, names[k]) == TypeOf(schema, names[k])
    {
      TypeAfterCreate(schema, ToCreateOf(schema), names[k]);
      CreatedTypes(schema, names[k]);
    }
    FirstOfTypeSame(after, schema, names, ty);
  }

  /** A search whose default is its first candidate finds the same
      property once the missing one has been created. */
  lemma SearchAfterCreating(schema: Schema, names: seq<string>, ty: string)
    requires names != [] && IsCreatedName(names[0])
    requires forall k :: 1 <= k < |names| ==> !IsCreatedName(names[k])
    requires FirstOfType(schema, names, ty).None? ==> CreatedType(ToCreateOf(schema), names[0]) == Some(ty)
    requires FirstOfType(schema, names, ty).Some? ==> CreatedType(ToCreateOf(schema), names[0]).None?
    ensures FirstOfType(AfterCreate(schema, ToCreateOf(schema)), names, ty)
            == Some(OrDefault(FirstOfType(schema, names, ty), names[0]))
  {
    if FirstOfType(schema, names, ty).None? {
      SearchFindsCreated(schema, names, ty);
    } else {
      SearchKeepsFound(schema, names, ty);
    }
  }

  /** Nothing matched: the default, now created with the type, is found. */
  lemma SearchFindsCreated(schema: Schema, names: seq<string>, ty: string)
    requires names != [] && CreatedType(ToCreateOf(schema), names[0]) == Some(ty)
    ensures FirstOfType(AfterCreate(schema, ToCreateOf(schema)), names, ty) == Some(names[0])
  {
    TypeAfterCreate(schema, ToCreateOf(schema), names[0]);
    FirstOfTypeHead(AfterCreate(schema, ToCreateOf(schema)), names, ty);
  }

  /** A match already existed: no candidate changes type, so it is found again. */
  lemma SearchKeepsFound(schema: Schema, names: seq<string>, ty: string)
    requires names != [] && CreatedType(ToCreateOf(schema), names[0]).None?
    requires forall k :: 1 <= k < |names| ==> !IsCreatedName(names[k])
    ensures FirstOfType(AfterCreate(schema, ToCreateOf(schema)), names, ty) == FirstOfType(schema, names, ty)
  {
    var after := AfterCreate(schema, ToCreateOf(schema));
    forall k | 0 <= k < |names|
      ensures TypeOf(after, names[k]) == TypeOf(schema, names[k])
    {
      TypeAfterCreate(schema, ToCreateOf(schema), names[k]);
      if k > 0 {
        CreatedTypes(schema, names[k]);
      }
    }
    FirstOfTypeSame(after, schema, names, ty);
  }

  /** The creations never touch `Priority`. */
  lemma PriorityAfter(schema: Schema)
    ensures HasType(AfterCreate(schema, ToCreateOf(schema)), "Priority", "select") == HasType(schema, "Priority", "select")
  {
    TypeAfterCreate(schema, ToCreateOf(schema), "Priority");
    CreatedTypes(schema, "Priority");
  }

  /** The creations never touch a due-date candidate. */
  lemma DueAfter(schema: Schema)
    ensures FirstOfType(AfterCreate(schema, ToCreateOf(schema)), DueNames, "date") == FirstOfType(schema, DueNames, "date")
  {
    SearchUntouched(schema, DueNames, "date");
  }

  /** The creations never touch a context candidate. */
  lemma ContextAfter(schema: Schema)
    ensures FirstOfType(AfterCreate(schema, ToCreateOf(schema)), ContextNames, "rich_text") == FirstOfType(schema, ContextNames, "rich_text")
  {
    SearchUntouched(schema, ContextNames, "rich_text");
  }

  /** After the creations the `pocket_id` search finds what it found, or the created property. */
  lemma PocketIdAfter(schema: Schema)
    ensures FirstOfType(AfterCreate(schema, ToCreateOf(schema)), PocketIdNames, "rich_text")
            == Some(OrDefault(FirstOfType(schema, PocketIdNames, "rich_text"), "Inbox ID"))
  {
    CreatedTypes(schema, "Inbox ID");
    SearchAfterCreating(schema, PocketIdNames, "rich_text");
  }

  /** After the creations the `source_url` search finds what it found, or the created property. */
  lemma SourceAfter(schema: Schema)
    ensures FirstOfType(AfterCreate(schema, ToCreateOf(schema)), SourceNames, "url")
            == Some(OrDefault(FirstOfType(schema, SourceNames, "url"), "Source"))
  {
    CreatedTypes(schema, "Source");
    SearchAfterCreating(schema, SourceNames, "url");
  }

  /** After the creations the `tags` search finds what it found, or the created property. */
  lemma TagsAfter(schema: Schema)
    ensures FirstOfType(AfterCreate(schema, ToCreateOf(schema)), TagNames, "multi_select")
            == Some(OrDefault(FirstOfType(schema, TagNames, "multi_select"), "Tags"))
  {
    CreatedTypes(schema, "Tags");
    SearchAfterCreating(schema, TagNames, "multi_select");
  }

  /**
   * Running `setup` again on the database it just completed yields the
   * same property map, key by key, and then at most the context property
   * is scheduled for creation again (its default name is not among its
   * own candidates).
   */
  lemma SetupIdempotent(schema: Schema, key: string)
    ensures var after := AfterCreate(schema, ToCreateOf(schema));
            Lookup(DerivePropertyMap(after), key) == Lookup(DerivePropertyMap(schema), key)
            && (LastFor(ToCreateOf(after), key).Some? ==> key == "context")
  {
    var after := AfterCreate(schema, ToCreateOf(schema));
    MappingRules(schema, key);
    MappingRules(after, key);
    PriorityAfter(schema);
    DueAfter(schema);
    ContextAfter(schema);
    PocketIdAfter(schema);
    SourceAfter(schema);
    TagsAfter(schema);
    LastForCreated(after, key);
  }

  // ---------------------------------------------------------------------
  // Key checks
  // ---------------------------------------------------------------------

  datatype Service = PocketApi | NotionApi

  /** How `verify_*_key` reads `str(e)`. */
  datatype KeyProblem = InvalidKey | NoPermission | NoConnection | ApiError(detail: string)

  /** The markers are looked for in order: 401/Unauthorized, then
      403/Forbidden, then connection/resolve in lower case. */
  function Classify(error: string): (p: KeyProblem)
    ensures p.InvalidKey? <==> Contains(error, "401") || Contains(error, "Unauthorized")
    ensures p.NoPermission? <==> !p.InvalidKey? && (Contains(error, "403") || Contains(error, "Forbidden"))
    ensures p.NoConnection? <==> !p.InvalidKey? && !p.NoPermission?
                                 && (Contains(Lower(error), "connection") || Contains(Lower(error), "resolve"))
    ensures p.ApiError? ==> p.detail == error
  {
    if Contains(error, "401") || Contains(error, "Unauthorized") then InvalidKey
    else if Contains(error, "403") || Contains(error, "Forbidden") then NoPermission
    else if Contains(Lower(error), "connection") || Contains(Lower(error), "resolve") then NoConnection
    else ApiError(error)
  }

  function ServiceName(service: Service): string {
    match service
    case PocketApi => "Pocket"
    case NotionApi => "Notion"
  }

  function Message(service: Service, p: KeyProblem): string {
    match p
    case InvalidKey => "Invalid API key. Please check and try again."
    case NoPermission =>
      // One literal in the source; written as head + tail so that
      // `MessageMark` can read the first five characters off the head.
      if service.PocketApi? then "API key " + "doesn't have permission. Create a key with 'Read' access."
      else "API key " + "doesn't have permission. Check your integration settings."
    case NoConnection => "Can't connect to " + ServiceName(service) + " API. Check your internet connection."
    case ApiError(detail) => "API error: " + detail
  }

  /** The first and fifth characters of each kind of message. */
  function Mark(p: KeyProblem): (char, char) {
    match p
    case InvalidKey => ('I', 'l')
    case NoPermission => ('A', 'k')
    case NoConnection => ('C', 't')
    case ApiError(_) => ('A', 'e')
  }

  /** The first and fifth characters of a message are its kind's mark. */
  lemma MessageMark(service: Service, p: KeyProblem)
    ensures |Message(service, p)| > 4
    ensures Message(service, p)[0] == Mark(p).0 && Message(service, p)[4] == Mark(p).1
  {
    match p
    case InvalidKey => InvalidKeyMark(service);
    case NoPermission => NoPermissionMark(service);
    case NoConnection => NoConnectionMark(service);
    case ApiError(detail) => ApiErrorMark(service, detail);
  }

  lemma InvalidKeyMark(service: Service)
    ensures |Message(service, InvalidKey)| > 4
    ensures Message(service, InvalidKey)[0] == 'I' && Message(service, InvalidKey)[4] == 'l'
  {
    var fixed := "Invalid API key. Please check and try again.";
    assert Message(service, InvalidKey) == fixed;
    assert fixed[0] == 'I' && fixed[4] == 'l';
  }

  lemma NoPermissionMark(service: Service)
    ensures |Message(service, NoPermission)| > 4
    ensures Message(service, NoPermission)[0] == 'A' && Message(service, NoPermission)[4] == 'k'
  {
    var head := "API key ";
    if service.PocketApi? {
      HeadMark(Message(service, NoPermission), head, "doesn't have permission. Create a key with 'Read' access.");
    } else {
      HeadMark(Message(service, NoPermission), head, "doesn't have permission. Check your integration settings.");
    }
  }

  lemma NoConnectionMark(service: Service)
    ensures |Message(service, NoConnection)| > 4
    ensures Message(service, NoConnection)[0] == 'C' && Message(service, NoConnection)[4] == 't'
  {
    var tail := ServiceName(service) + " API. Check your internet connection.";
    assert Message(service, NoConnection) == "Can't connect to " + tail;
    HeadMark(Message(service, NoConnection), "Can't connect to ", tail);
  }

  lemma ApiErrorMark(service: Service, detail: string)
    ensures |Message(service, ApiError(detail))| > 4
    ensures Message(service, ApiError(detail))[0] == 'A' && Message(service, ApiError(detail))[4] == 'e'
  {
    HeadMark(Message(service, ApiError(detail)), "API error: ", detail);
  }

  /** A text that starts with `head` shares its first characters. */
  lemma HeadMark(m: string, head: string, tail: string)
    requires m == head + tail && |head| > 4
    ensures |m| > 4 && m[0] == head[0] && m[4] == head[4]
  {
  }

  /** The first and fifth characters of the messages tell an API error
      from the fixed messages. */
  lemma MessageHead(service: Service, p: KeyProblem)
    ensures |Message(service, p)| > 4
    ensures p.ApiError? <==> Message(service, p)[0] == 'A' && Message(service, p)[4] == 'e'
  {
    MessageMark(service, p);
  }

  /** An API error's message carries the error text after its prefix. */
  lemma ApiErrorDetail(service: Service, detail: string)
    ensures |Message(service, ApiError(detail))| >= 11
    ensures Message(service, ApiError(detail))[11..] == detail
  {
    var prefix := "API error: ";
    assert |prefix| == 11;
    assert Message(service, ApiError(detail)) == prefix + detail;
  }

  /** The message tells the user which kind of failure it was. */
  lemma MessageDeterminesProblem(service: Service, p: KeyProblem, q: KeyProblem)
    ensures Message(service, p) == Message(service, q) ==> p == q
  {
    if Message(service, p) == Message(service, q) {
      MessageMark(service, p);
      MessageMark(service, q);
      assert Mark(p) == Mark(q);
      if p.ApiError? {
        ApiErrorDetail(service, p.detail);
        ApiErrorDetail(service, q.detail);
      }
    }
  }

  /** `verify_*_key`: `check` is None where the probe call returns, else
      the text of the exception it raised. */
  function VerifyKey(service: Service, check: Option<string>): (r: (bool, string))
    ensures r.0 <==> check.None?
    ensures r.0 ==> r.1 == ""
    ensures !r.0 ==> r.1 == Message(service, Classify(check.value)) && r.1 != ""
  {
    match check
    case None => (true, "")
    case Some(error) =>
      MessageMark(service, Classify(error));
      (false, Message(service, Classify(error)))
  }

  /** The probe's outcome, with `str(e)` for a raised error. */
  function Probe<T>(call: Outcome<T>, describe: Error -> string): Option<string> {
    match call
    case Ok(_) => None
    case Raised(e) => Some(describe(e))
  }

  /** `verify_notion_key`: the probe is `search_databases()`. */
  function VerifyNotionKey(search: Outcome<seq<Json>>, describe: Error -> string): (r: (bool, string))
    ensures r.0 <==> search.Ok?
    ensures search.Raised? ==> r.1 == Message(NotionApi, Classify(describe(search.error)))
  {
    VerifyKey(NotionApi, Probe(search, describe))
  }

  /** `str(e)` of the AttributeError raised by the missing method. */
  const MissingMethodError := "'PocketClient' object has no attribute 'get_recordings'"

  /** `verify_pocket_key` as written: it calls `get_recordings(limit=1)`,
      which `PocketClient` does not define, so the call always raises. */
  function VerifyPocketKeyAsWritten(key: string): (r: (bool, string))
    ensures !r.0
  {
    VerifyKey(PocketApi, Some(MissingMethodError))
  }

  /** Whatever key is entered, `setup` stops at "Checking Pocket API". */
  lemma PocketCheckAlwaysFails(key: string, listing: Outcome<seq<Json>>)
    requires listing.Ok?
    ensures !VerifyPocketKeyAsWritten(key).0
    ensures VerifyPocketKey(listing, e => "").0
  {
  }

  /** `verify_pocket_key` with the probe the client provides,
      `get_recordings_list(limit=1)`. */
  function VerifyPocketKey(listing: Outcome<seq<Json>>, describe: Error -> string): (r: (bool, string))
    ensures r.0 <==> listing.Ok?
    ensures listing.Raised? ==> r.1 == Message(PocketApi, Classify(describe(listing.error)))
  {
    VerifyKey(PocketApi, Probe(listing, describe))
  }

  // ---------------------------------------------------------------------
  // cmd_sync
  // ---------------------------------------------------------------------

  /** `cmd_sync(dry_run)`: None where `Config.load()` raises (outside any
      `try`); `engine` is what `SyncEngine.sync(dry_run)` returns or raises.
      Building the clients never raises. */
  function CmdSync(pocketKey: Option<string>, notionKey: Option<string>, loaded: LoadResult,
                   engine: (ConfigValue, bool) -> Outcome<SyncResult>, dryRun: bool): (code: Option<int>)
    ensures code.None? <==> Daemon.KeySet(pocketKey) && Daemon.KeySet(notionKey) && loaded.Crashed?
    ensures code.Some? ==> code.value == 0 || code.value == 1
    ensures code == Some(0) <==>
              Daemon.KeySet(pocketKey) && Daemon.KeySet(notionKey) && loaded.Loaded?
              && IsConfiguredValue(loaded.value) && engine(loaded.value, dryRun).Ok?
              && engine(loaded.value, dryRun).value.failed == 0
  {
    if !Daemon.KeySet(pocketKey) then Some(1)
    else if !Daemon.KeySet(notionKey) then Some(1)
    else if loaded.Crashed? then None
    else if !IsConfiguredValue(loaded.value) then Some(1)
    else match engine(loaded.value, dryRun)
      case Raised(_) => Some(1)
      case Ok(res) => Some(if res.failed == 0 then 0 else 1)
  }

  /** `sync` succeeds exactly when a daemon pass on the same inputs would
      report counts with no failed item. */
  lemma SyncExitAgreesWithDaemon(pocketKey: Option<string>, notionKey: Option<string>, loaded: LoadResult,
                                 engine: (ConfigValue, bool) -> Outcome<SyncResult>, describe: Error -> string)
    ensures var summary := Daemon.DoSync(pocketKey, notionKey, loaded, v => engine(v, false), describe);
            CmdSync(pocketKey, notionKey, loaded, engine, false) == Some(0)
            <==> summary.Some? && summary.value.Counts? && summary.value.failed == 0
  {
  }

  /** A fetch from Pocket that raises is reported as an error but counts no
      failed item, so `sync` exits 0. */
  lemma FetchFailureExitsZero(pocketKey: Option<string>, notionKey: Option<string>, v: ConfigValue,
                              engine: (ConfigValue, bool) -> Outcome<SyncResult>, dryRun: bool,
                              s: Sync.Services, e: Error)
    requires Daemon.KeySet(pocketKey) && Daemon.KeySet(notionKey) && IsConfiguredValue(v)
    requires engine(v, dryRun) == Ok(Sync.SyncRun(v, Sync.Since(v), s, dryRun).result)
    requires s.fetch(Sync.Since(v)) == Raised(e)
    ensures CmdSync(pocketKey, notionKey, Loaded(v), engine, dryRun) == Some(0)
  {
    Sync.FetchFailure(v, Sync.Since(v), s, dryRun, e);
  }

  // ---------------------------------------------------------------------
  // main
  // ---------------------------------------------------------------------

  datatype Command =
    | Usage                       // no arguments
    | SetupCmd
    | SyncCmd(dryRun: bool)
    | StatusCmd
    | ConfigCmd(action: string)
    | DaemonCmd(args: seq<string>)
    | HelpCmd
    | VersionCmd
    | UnknownCmd(name: string)

  /** The command `main(args)` runs; the name is matched in lower case. */
  function Dispatch(args: seq<string>): (c: Command)
    ensures c.Usage? <==> args == []
    ensures c.SyncCmd? ==> (c.dryRun <==> "--dry-run" in args || "-n" in args)
    ensures c.ConfigCmd? ==> c.action == if |args| > 1 then args[1] else "show"
    ensures c.DaemonCmd? ==> c.args == args[1..]
    ensures c.UnknownCmd? ==> c.name == Lower(args[0])
  {
    if args == [] then Usage
    else
      var command := Lower(args[0]);
      if command == "setup" then SetupCmd
      else if command == "sync" then SyncCmd("--dry-run" in args || "-n" in args)
      else if command == "status" then StatusCmd
      else if command == "config" then ConfigCmd(if |args| > 1 then args[1] else "show")
      else if command == "daemon" then DaemonCmd(args[1..])
      else if command in ["--help", "-h", "help"] then HelpCmd
      else if command in ["--version", "-v"] then VersionCmd
      else UnknownCmd(command)
  }

  /** The command name's case does not matter. */
  lemma DispatchIgnoresCase(args: seq<string>)
    requires args != []
    ensures Dispatch([Lower(args[0])] + args[1..]) == Dispatch(args)
  {
    var args' := [Lower(args[0])] + args[1..];
    Daemon.LowerIdempotent(args[0]);
    assert args'[1..] == args[1..];
    if Lower(args[0]) == "sync" {
      assert args[0] != "--dry-run" && args[0] != "-n" by {
        assert Lower("--dry-run") == "--dry-run";
        assert Lower("-n") == "-n";
      }
      assert ("--dry-run" in args) == ("--dry-run" in args[1..]);
      assert ("--dry-run" in args') == ("--dry-run" in args[1..]);
      assert ("-n" in args) == ("-n" in args[1..]);
      assert ("-n" in args') == ("-n" in args[1..]);
    }
  }

  /** The exit code of `main(args)`. `sync` is `cmd_sync(dry_run)` and `run`
      is what the other command functions return, each None where the
      command raises. A raised exception is caught by `main`, which
      reports it and returns 1. */
  function MainExit(args: seq<string>, sync: bool -> Option<int>, run: Command -> Option<int>): (code: int)
    ensures Dispatch(args).UnknownCmd? ==> code == 1
    ensures Dispatch(args).Usage? || Dispatch(args).HelpCmd? || Dispatch(args).VersionCmd? ==> code == 0
    ensures Dispatch(args).SyncCmd? ==> (sync(Dispatch(args).dryRun).None? ==> code == 1)
    ensures Dispatch(args).SyncCmd? && sync(Dispatch(args).dryRun).Some? ==> code == sync(Dispatch(args).dryRun).value
  {
    match Dispatch(args)
    case Usage => 0
    case HelpCmd => 0
    case VersionCmd => 0
    case UnknownCmd(_) => 1
    case SyncCmd(dryRun) => Caught(sync(dryRun))
    case c => Caught(run(c))
  }

  /** The code of a command run inside `main`'s `try`: 1 when it raised. */
  function Caught(code: Option<int>): int {
    if code.Some? then code.value else 1
  }

  /** `powerflow sync` exits 0 exactly when both keys are set, the
      configuration loads and is set up, and the pass returns with no
      failed item; in every other case, including a configuration file
      that cannot be loaded, it exits 1. */
  lemma MainSyncExit(args: seq<string>, pocketKey: Option<string>, notionKey: Option<string>, loaded: LoadResult,
                     engine: (ConfigValue, bool) -> Outcome<SyncResult>, run: Command -> Option<int>)
    requires Dispatch(args).SyncCmd?
    ensures var code := MainExit(args, d => CmdSync(pocketKey, notionKey, loaded, engine, d), run);
            var dryRun := Dispatch(args).dryRun;
            (code == 0 || code == 1)
            && (code == 0 <==>
                  Daemon.KeySet(pocketKey) && Daemon.KeySet(notionKey) && loaded.Loaded?
                  && IsConfiguredValue(loaded.value) && engine(loaded.value, dryRun).Ok?
                  && engine(loaded.value, dryRun).value.failed == 0)
  {
  }

  /** `powerflow SYNC -n` is a dry run of `sync`. */
  lemma ShortDryRunFlag(rest: seq<string>)
    ensures Dispatch(["SYNC", "-n"] + rest) == SyncCmd(true)
  {
    var args := ["SYNC", "-n"] + rest;
    assert args[1] == "-n";
    assert Lower("SYNC") == "sync";
  }
}
