/**
 * The persisted configuration: the Notion database and its property map,
 * the Pocket watermark, and the creation stamp. The configuration file is an
 * abstract store holding nothing, something unparsable, or a JSON document.
 */
module Configuration {
  import opened Text
  import opened Json

  /** The property map: Pocket field name to Notion property name, as an
      insertion-ordered dictionary. */
  type PropertyMap = seq<(string, string)>

  const DefaultPropertyMap: PropertyMap := [
    ("title", "Name"),
    ("pocket_id", "Inbox ID"),
    ("priority", "Priority"),
    ("due_date", "Due Date"),
    ("context", "Context"),
    ("source_url", "Source")
  ]

  /** Everything the configuration file records. */
  datatype ConfigValue = ConfigValue(
    databaseId: Option<string>,
    databaseName: Option<string>,
    propertyMap: PropertyMap,
    lastSync: Option<string>,
    createdAt: Option<string>)

  /** `Config()`: no database, the default property map, never synced. */
  const Defaults: ConfigValue := ConfigValue(None, None, DefaultPropertyMap, None, None)

  /** `is_configured`: a non-empty database id has been chosen. */
  predicate IsConfiguredValue(v: ConfigValue) {
    v.databaseId.Some? && v.databaseId.value != ""
  }

  lemma DefaultsShape()
    ensures !IsConfiguredValue(Defaults) && Defaults.lastSync.None?
    ensures Lookup(Defaults.propertyMap, "title") == Some("Name")
    ensures Lookup(Defaults.propertyMap, "pocket_id") == Some("Inbox ID")
    ensures !HasKey(Defaults.propertyMap, "tags")
  {
    LookupAt(DefaultPropertyMap, 0);
    LookupAt(DefaultPropertyMap, 1);
  }

  datatype FileState = Missing | Unparsable | Present(data: Json)

  /** What loading produces: a configuration, or the `AttributeError` raised
      when the document is valid JSON but not an object. */
  datatype LoadResult = Loaded(value: ConfigValue) | Crashed

  function EncodeOpt(o: Option<string>): Json {
    if o.Some? then JStr(o.value) else JNull
  }

  /** A string-or-null field: None when it holds anything else. */
  function DecodeOpt(j: Json): (r: Option<Option<string>>)
    ensures r == Some(None) <==> j == JNull
  {
    match j
    case JNull => Some(None)
    case JStr(s) => Some(Some(s))
    case _ => None
  }

  lemma DecodeEncodeOpt(o: Option<string>)
    ensures DecodeOpt(EncodeOpt(o)) == Some(o)
  {
  }

  function EncodeMap(m: PropertyMap): (r: seq<(string, Json)>)
    ensures |r| == |m|
  {
    if m == [] then [] else [(m[0].0, JStr(m[0].1))] + EncodeMap(m[1..])
  }

  /** A dictionary with only string values. */
  function DecodeMap(fields: seq<(string, Json)>): (r: Option<PropertyMap>)
    ensures r.Some? ==> |r.value| == |fields|
  {
    if fields == [] then Some([])
    else if !fields[0].1.JStr? then None
    else match DecodeMap(fields[1..])
      case None => None
      case Some(rest) => Some([(fields[0].0, fields[0].1.s)] + rest)
  }

  lemma {:induction false} DecodeEncodeMap(m: PropertyMap)
    ensures DecodeMap(EncodeMap(m)) == Some(m)
  {
    if m != [] {
      DecodeEncodeMap(m[1..]);
      var e := EncodeMap(m);
      assert e[0] == (m[0].0, JStr(m[0].1)) && e[1..] == EncodeMap(m[1..]);
      assert [(m[0].0, m[0].1)] + m[1..] == m;
    }
  }

  /** The document `save` writes (`json.dumps` of the dataclasses). */
  function Encode(v: ConfigValue): Json {
    JObj([
      ("notion", EncodeNotion(v)),
      ("pocket", JObj([("last_sync", EncodeOpt(v.lastSync))])),
      ("created_at", EncodeOpt(v.createdAt))])
  }

  predicate OnlyKeys(fields: seq<(string, Json)>, allowed: set<string>) {
    forall i :: 0 <= i < |fields| ==> fields[i].0 in allowed
  }

  /** `NotionConfig(**d)`: (database id, database name, property map), or
      None where the constructor raises `TypeError`. */
  function DecodeNotion(d: Json): Option<(Option<string>, Option<string>, PropertyMap)> {
    if !d.JObj? || !OnlyKeys(d.fields, {"database_id", "database_name", "property_map"}) then None
    else
      var id := DecodeOpt(GetNull(d, "database_id"));
      var name := DecodeOpt(GetNull(d, "database_name"));
      var pmv: Option<Json> := Lookup(d.fields, "property_map");
      var pm: Option<PropertyMap> := match pmv
        case None => Some(DefaultPropertyMap)
        case Some(JObj(fs)) => DecodeMap(fs)
        case Some(_) => None;
      if id.None? || name.None? || pm.None? then None
      else Some((id.value, name.value, pm.value))
  }

  /** `PocketConfig(**d)`: the watermark, or None where it raises. */
  function DecodePocket(d: Json): Option<Option<string>> {
    if !d.JObj? || !OnlyKeys(d.fields, {"last_sync"}) then None
    else DecodeOpt(GetNull(d, "last_sync"))
  }

  /** `Config.load` on a parsed document. */
  function Decode(data: Json): (r: LoadResult)
    ensures r.Crashed? <==> !data.JObj?
  {
    if !data.JObj? then Crashed
    else
      var notion := DecodeNotion(GetOr(data, "notion", JObj([])));
      var pocket := DecodePocket(GetOr(data, "pocket", JObj([])));
      var created := DecodeOpt(GetNull(data, "created_at"));
      if notion.None? || pocket.None? || created.None? then Loaded(Defaults)
      else
        var (id, name, pm) := notion.value;
        Loaded(ConfigValue(id, name, pm, pocket.value, created.value))
  }

  /** `Config.load`: defaults for a missing or unparsable file. */
  function LoadFrom(state: FileState): (r: LoadResult)
    ensures state.Missing? || state.Unparsable? ==> r == Loaded(Defaults)
  {
    match state
    case Missing => Loaded(Defaults)
    case Unparsable => Loaded(Defaults)
    case Present(data) => Decode(data)
  }

  function EncodeNotion(v: ConfigValue): Json {
    JObj([
      ("database_id", EncodeOpt(v.databaseId)),
      ("database_name", EncodeOpt(v.databaseName)),
      ("property_map", JObj(EncodeMap(v.propertyMap)))])
  }

  /** Lookups in a three-entry object with distinct keys. */
  lemma LookupThree<V>(a: (string, V), b: (string, V), c: (string, V))
    requires a.0 != b.0 && b.0 != c.0 && a.0 != c.0
    ensures Lookup([a, b, c], a.0) == Some(a.1)
    ensures Lookup([a, b, c], b.0) == Some(b.1)
    ensures Lookup([a, b, c], c.0) == Some(c.1)
  {
    var f := [a, b, c];
    assert f[..2] == [a, b] && f[..2][..1] == [a];
    assert Lookup([a], a.0) == Some(a.1);
    assert Lookup([a, b], b.0) == Some(b.1);
    assert [a, b][..1] == [a];
    assert Lookup([a, b], a.0) == Some(a.1);
  }

  lemma DecodeEncodeNotion(v: ConfigValue)
    ensures DecodeNotion(EncodeNotion(v)) == Some((v.databaseId, v.databaseName, v.propertyMap))
  {
    var n := EncodeNotion(v);
    LookupThree(n.fields[0], n.fields[1], n.fields[2]);
    assert n.fields == [n.fields[0], n.fields[1], n.fields[2]];
    DecodeEncodeOpt(v.databaseId);
    DecodeEncodeOpt(v.databaseName);
    DecodeEncodeMap(v.propertyMap);
    assert OnlyKeys(n.fields, {"database_id", "database_name", "property_map"});
  }

  lemma DecodeEncodePocket(v: ConfigValue)
    ensures DecodePocket(JObj([("last_sync", EncodeOpt(v.lastSync))])) == Some(v.lastSync)
  {
    var p := JObj([("last_sync", EncodeOpt(v.lastSync))]);
    assert Lookup(p.fields, "last_sync") == Some(EncodeOpt(v.lastSync));
    DecodeEncodeOpt(v.lastSync);
  }

  /** What `save` writes, `load` reads back unchanged. */
  lemma DecodeEncode(v: ConfigValue)
    ensures Decode(Encode(v)) == Loaded(v)
  {
    var doc := Encode(v);
    var f := doc.fields;
    assert f == [("notion", EncodeNotion(v)), f[1], f[2]];
    LookupThree(f[0], f[1], f[2]);
    DecodeEncodeNotion(v);
    DecodeEncodePocket(v);
    DecodeEncodeOpt(v.createdAt);
  }

  /** The configuration file. */
  class ConfigFile {
    var state: FileState

    constructor (s: FileState)
      ensures state == s
    {
      state := s;
    }
  }

  /** The in-memory configuration object. */
  class Config {
    var databaseId: Option<string>
    var databaseName: Option<string>
    var propertyMap: PropertyMap
    var lastSync: Option<string>
    var createdAt: Option<string>

    function Value(): ConfigValue
      reads this
    {
      ConfigValue(databaseId, databaseName, propertyMap, lastSync, createdAt)
    }

    /** `Config()` */
    constructor ()
      ensures Value() == Defaults
    {
      databaseId := None;
      databaseName := None;
      propertyMap := DefaultPropertyMap;
      lastSync := None;
      createdAt := None;
    }

    /** A configuration object holding `v`. */
    constructor FromValue(v: ConfigValue)
      ensures Value() == v
    {
      databaseId := v.databaseId;
      databaseName := v.databaseName;
      propertyMap := v.propertyMap;
      lastSync := v.lastSync;
      createdAt := v.createdAt;
    }

    /** `is_configured` */
    predicate IsConfigured()
      reads this
    {
      IsConfiguredValue(Value())
    }

    /** `save()` at local time `now`: stamps `created_at` only when it is
        unset or empty, then writes the whole configuration. */
    method Save(file: ConfigFile, now: string)
      modifies this, file
      ensures createdAt == (if old(createdAt).None? || old(createdAt).value == "" then Some(now) else old(createdAt))
      ensures databaseId == old(databaseId) && databaseName == old(databaseName)
      ensures propertyMap == old(propertyMap) && lastSync == old(lastSync)
      ensures file.state == Present(Encode(Value()))
      ensures LoadFrom(file.state) == Loaded(Value())
    {
      if createdAt.None? || createdAt.value == "" {
        createdAt := Some(now);
      }
      file.state := Present(Encode(Value()));
      DecodeEncode(Value());
    }

    /** `update_last_sync()` at local time `now`: records the watermark and saves. */
    method UpdateLastSync(file: ConfigFile, now: string)
      modifies this, file
      ensures lastSync == Some(now)
      ensures databaseId == old(databaseId) && databaseName == old(databaseName)
      ensures propertyMap == old(propertyMap)
      ensures createdAt == (if old(createdAt).None? || old(createdAt).value == "" then Some(now) else old(createdAt))
      ensures file.state == Present(Encode(Value()))
      ensures LoadFrom(file.state) == Loaded(Value())
    {
      lastSync := Some(now);
      Save(file, now);
    }
  }

  /** `Config.load()`: a fresh configuration object, or None where loading raises. */
  method Load(file: ConfigFile) returns (r: Option<Config>)
    ensures r.None? <==> LoadFrom(file.state).Crashed?
    ensures r.Some? ==> fresh(r.value) && r.value.Value() == LoadFrom(file.state).value
  {
    var res := LoadFrom(file.state);
    if res.Crashed? {
      return None;
    }
    var c := new Config.FromValue(res.value);
    return Some(c);
  }

  /** A saved configuration loads back with the same database id and name. */
  method SaveThenLoad(c: Config, file: ConfigFile, now: string) returns (loaded: Config)
    modifies c, file
    ensures loaded.databaseId == old(c.databaseId) && loaded.databaseName == old(c.databaseName)
    ensures loaded.propertyMap == old(c.propertyMap) && loaded.lastSync == old(c.lastSync)
  {
    c.Save(file, now);
    var r := Load(file);
    loaded := r.value;
  }
}
