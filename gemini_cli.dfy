/** Registration with the file-merge host (`updateGeminiCLI`): a read-modify-write
    of `<cwd>/.gemini/settings.json` through `GeminiConfig`, whose custom
    decoder and encoder are meant to carry every top-level key other than
    `mcpServers` through unchanged.

    The source's decoder goes through the typed `McpServerDef` record, and
    two consequences are modelled as written and then corrected: entries that
    record does not describe lose their fields, and a type mismatch anywhere
    under `mcpServers` drops every other top-level key. The corrected update
    edits the document as a generic map, as the `add` command does. */
module GeminiCli {
  import opened Common
  import opened Json
  import opened Station
  import opened BuildTypes
  import opened ClaudeCode

  // ---- decoding and encoding one server entry -----------------------------

  /** A JSON string into a Go `string`: `null` leaves the zero value; any
      other kind is a type mismatch that also leaves the zero value. */
  function DecodeString(v: Value): (r: (string, bool))
    ensures r.1 <==> v.Str? || v.Null?
    ensures v.Str? ==> r.0 == v.s
    ensures !v.Str? ==> r.0 == ""
  {
    match v
    case Str(s) => (s, true)
    case Null => ("", true)
    case _ => ("", false)
  }

  /** A JSON array into a `[]string`, element by element; `null` is the nil slice. */
  function DecodeStrings(v: Value): (r: (seq<string>, bool))
    ensures v.Arr? ==> |r.0| == |v.items| && forall i :: 0 <= i < |v.items| ==> r.0[i] == DecodeString(v.items[i]).0
    ensures !v.Arr? ==> r.0 == []
    ensures r.1 <==> v.Null? || (v.Arr? && forall i :: 0 <= i < |v.items| ==> DecodeString(v.items[i]).1)
  {
    match v
    case Arr(items) =>
      (seq(|items|, i requires 0 <= i < |items| => DecodeString(items[i]).0),
       forall i :: 0 <= i < |items| ==> DecodeString(items[i]).1)
    case Null => ([], true)
    case _ => ([], false)
  }

  /** A JSON object into a `map[string]string`; `null` is the nil map. */
  function DecodeEnv(v: Value): (r: (map<string, string>, bool))
    ensures v.Obj? ==> r.0.Keys == v.fields.Keys && forall k :: k in v.fields ==> r.0[k] == DecodeString(v.fields[k]).0
    ensures !v.Obj? ==> r.0 == map[]
    ensures r.1 <==> v.Null? || (v.Obj? && forall k :: k in v.fields ==> DecodeString(v.fields[k]).1)
  {
    match v
    case Obj(fields) =>
      (map k | k in fields :: DecodeString(fields[k]).0,
       forall k :: k in fields ==> DecodeString(fields[k]).1)
    case Null => (map[], true)
    case _ => (map[], false)
  }

  function Field(fields: map<string, Value>, key: string): Value {
    if key in fields then fields[key] else Null
  }

  /** A JSON value into `McpServerDef`: the four known fields are decoded,
      every other field is dropped, and a mismatch leaves the zero value of
      that field and reports failure. */
  function DecodeDef(v: Value): (r: (McpServerDef, bool))
    ensures v.Obj? ==> r.0 == McpServerDef(
      DecodeString(Field(v.fields, "type")).0, DecodeString(Field(v.fields, "command")).0,
      DecodeStrings(Field(v.fields, "args")).0, DecodeEnv(Field(v.fields, "env")).0)
    ensures !v.Obj? ==> r.0 == McpServerDef("", "", [], map[])
    ensures r.1 <==>
      v.Null? || (v.Obj? && DecodeString(Field(v.fields, "type")).1 && DecodeString(Field(v.fields, "command")).1
        && DecodeStrings(Field(v.fields, "args")).1 && DecodeEnv(Field(v.fields, "env")).1)
  {
    match v
    case Obj(fields) =>
      var kind := DecodeString(Field(fields, "type"));
      var command := DecodeString(Field(fields, "command"));
      var args := DecodeStrings(Field(fields, "args"));
      var env := DecodeEnv(Field(fields, "env"));
      (McpServerDef(kind.0, command.0, args.0, env.0), kind.1 && command.1 && args.1 && env.1)
    case Null => (McpServerDef("", "", [], map[]), true)
    case _ => (McpServerDef("", "", [], map[]), false)
  }

  /** `McpServerDef` as JSON: `type`, `command` and `args` always, `env` only
      when non-empty (`omitempty`). */
  function EncodeDef(d: McpServerDef): (v: Value)
    ensures v.Obj?
    ensures v.fields.Keys == {"type", "command", "args"} + (if |d.env| > 0 then {"env"} else {})
  {
    var base := map["type" := Str(d.kind), "command" := Str(d.command), "args" := StrArray(d.args)];
    Obj(if |d.env| > 0 then base["env" := StrObject(d.env)] else base)
  }

  /** An encoded string list decodes back to itself. */
  lemma StringsRoundTrip(ss: seq<string>)
    ensures DecodeStrings(StrArray(ss)) == (ss, true)
  {
    var r := DecodeStrings(StrArray(ss));
    assert forall i :: 0 <= i < |ss| ==> DecodeString(StrArray(ss).items[i]) == (ss[i], true);
    assert r.0 == ss;
  }

  /** An encoded string map decodes back to itself. */
  lemma EnvRoundTrip(m: map<string, string>)
    ensures DecodeEnv(StrObject(m)) == (m, true)
  {
    var r := DecodeEnv(StrObject(m));
    assert forall k :: k in m ==> DecodeString(StrObject(m).fields[k]) == (m[k], true);
    assert r.0 == m;
  }

  /** Decoding what was encoded gives the record back, without error. */
  lemma DefRoundTrip(d: McpServerDef)
    ensures DecodeDef(EncodeDef(d)) == (d, true)
  {
    var v := EncodeDef(d);
    assert Field(v.fields, "type") == Str(d.kind);
    assert Field(v.fields, "command") == Str(d.command);
    assert Field(v.fields, "args") == StrArray(d.args);
    StringsRoundTrip(d.args);
    if |d.env| > 0 {
      assert Field(v.fields, "env") == StrObject(d.env);
      EnvRoundTrip(d.env);
    } else {
      assert Field(v.fields, "env") == Null;
      assert d.env == map[];
    }
  }

  // ---- the configuration object -------------------------------------------

  /** `mcpServers` as the typed decoder leaves it: an object is decoded entry
      by entry into the existing map (a nil map starts empty), `null` makes it
      nil, and any other kind is a mismatch that leaves it alone. */
  function MergeServers(prior: Option<map<string, McpServerDef>>, doc: Doc): (r: Option<map<string, McpServerDef>>)
    ensures "mcpServers" in doc && doc["mcpServers"].Obj? ==>
      r.Some? && r.value.Keys == (if prior.Some? then prior.value.Keys else {}) + doc["mcpServers"].fields.Keys
  {
    if "mcpServers" !in doc then prior
    else match doc["mcpServers"]
      case Null => None
      case Obj(fields) =>
        var decoded := map k | k in fields :: DecodeDef(fields[k]).0;
        Some((if prior.Some? then prior.value else map[]) + decoded)
      case _ => prior
  }

  /** Whether the typed decoder reports an error for this document. */
  predicate DecodeOk(doc: Doc) {
    "mcpServers" !in doc || match doc["mcpServers"]
      case Null => true
      case Obj(fields) => forall k :: k in fields ==> DecodeDef(fields[k]).1
      case _ => false
  }

  function ServersValue(servers: Option<map<string, McpServerDef>>): (v: Value)
    ensures servers.None? <==> v == Null
    ensures servers.Some? ==> v.Obj? && v.fields.Keys == servers.value.Keys
  {
    match servers
    case None => Null
    case Some(m) => Obj(map k | k in m :: EncodeDef(m[k]))
  }

  /** What `MarshalJSON` produces: the other fields, with `mcpServers` always
      taken from the typed map. */
  function Marshal(others: Doc, servers: Option<map<string, McpServerDef>>): (out: Doc)
    ensures out.Keys == others.Keys + {"mcpServers"}
    ensures forall k :: k in others && k != "mcpServers" ==> out[k] == others[k]
    ensures out["mcpServers"] == ServersValue(servers)
  {
    others["mcpServers" := ServersValue(servers)]
  }

  /** `GeminiConfig`: the typed server map and the raw other top-level fields. */
  class GeminiConfig {
    var mcpServers: Option<map<string, McpServerDef>>  // None: the nil map
    var otherFields: Doc

    /** The zero value `var cfg GeminiConfig`. */
    constructor ()
      ensures mcpServers == None && otherFields == map[]
    {
      mcpServers := None;
      otherFields := map[];
    }

    /** `UnmarshalJSON` on a top-level object: the typed decode first; on a
        mismatch it returns before `otherFields` is set. */
    method UnmarshalJSON(doc: Doc) returns (ok: bool)
      modifies this
      ensures mcpServers == MergeServers(old(mcpServers), doc)
      ensures ok == DecodeOk(doc)
      ensures otherFields == if ok then doc - {"mcpServers"} else old(otherFields)
    {
      mcpServers := MergeServers(mcpServers, doc);
      if !DecodeOk(doc) {
        return false;
      }
      var m := doc;
      m := m - {"mcpServers"};
      otherFields := m;
      return true;
    }

    /** `MarshalJSON`: copy the other fields one by one, then set `mcpServers`. */
    method MarshalJSON() returns (out: Doc)
      ensures out == Marshal(otherFields, mcpServers)
    {
      out := map[];
      var keys := otherFields.Keys;
      while keys != {}
        invariant keys <= otherFields.Keys
        invariant out.Keys == otherFields.Keys - keys
        invariant forall k :: k in out ==> out[k] == otherFields[k]
        decreases keys
      {
        var k :| k in keys;
        out := out[k := otherFields[k]];
        keys := keys - {k};
      }
      out := out["mcpServers" := ServersValue(mcpServers)];
    }
  }

  /** Decoding a document the typed decoder accepts and encoding it again keeps
      every top-level key other than `mcpServers`, with its value. */
  lemma OtherKeysSurvive(doc: Doc)
    requires DecodeOk(doc)
    ensures var out := Marshal(doc - {"mcpServers"}, MergeServers(None, doc));
      && out.Keys == doc.Keys + {"mcpServers"}
      && forall k :: k in doc && k != "mcpServers" ==> out[k] == doc[k]
  {
  }

  // ---- the update, as written ---------------------------------------------

  /** The configuration `updateGeminiCLI` starts from: the decoded file, or the
      zero configuration when the file is missing, unreadable or not an object
      (the decoding error is ignored); a nil server map is made empty. */
  function LoadConfig(f: FileState): (c: (map<string, McpServerDef>, Doc))
    ensures !f.Parsed? ==> c == (map[], map[])
    ensures f.Parsed? && DecodeOk(f.doc) ==> c.1 == f.doc - {"mcpServers"}
    ensures f.Parsed? && !DecodeOk(f.doc) ==> c.1 == map[]
  {
    if !f.Parsed? then (map[], map[])
    else
      var servers := MergeServers(None, f.doc);
      (if servers.Some? then servers.value else map[], if DecodeOk(f.doc) then f.doc - {"mcpServers"} else map[])
  }

  /** The source's update: the typed round trip with the stdio entry
      inserted under the name the source derives. */
  function GeminiAsWritten(w: Workstation, r: BuildResult, env: map<string, string>): (res: (Option<InjectError>, Workstation))
    ensures Join(w.cwd, ".gemini") in w.mkdirFails ==> res == (Some(GeminiDirFailed(Join(w.cwd, ".gemini"))), w)
  {
    var dir := Join(w.cwd, ".gemini");
    var path := Join(dir, "settings.json");
    if dir in w.mkdirFails then (Some(GeminiDirFailed(dir)), w)
    else
      var cfg := LoadConfig(ReadFile(w, path));
      var servers := cfg.0[NameAsWritten(r) := McpServerDef("stdio", r.command, r.args, env)];
      var written := WriteFile(w, path, Marshal(cfg.1, Some(servers)));
      if written.0 then (None, written.1) else (Some(GeminiWriteFailed(path)), w)
  }

  /** `updateGeminiCLI` step by step, through the configuration object. */
  method UpdateGeminiAsWritten(w: Workstation, r: BuildResult, env: map<string, string>)
    returns (err: Option<InjectError>, w': Workstation)
    ensures (err, w') == GeminiAsWritten(w, r, env)
  {
    var dir := Join(w.cwd, ".gemini");
    var path := Join(dir, "settings.json");
    if dir in w.mkdirFails {
      return Some(GeminiDirFailed(dir)), w;
    }
    var cfg := new GeminiConfig();
    var file := ReadFile(w, path);
    if file.Parsed? {
      var _ := cfg.UnmarshalJSON(file.doc);
    }
    if cfg.mcpServers.None? {
      cfg.mcpServers := Some(map[]);
    }
    var name := DeriveNameAsWritten(r);
    cfg.mcpServers := Some(cfg.mcpServers.value[name := McpServerDef("stdio", r.command, r.args, env)]);
    var data := cfg.MarshalJSON();
    var written := WriteFile(w, path, data);
    if !written.0 {
      return Some(GeminiWriteFailed(path)), w;
    }
    return None, written.1;
  }

  /** A remote entry, as the `add` command writes it. */
  function HttpEntry(url: string): Value {
    Obj(map["type" := Str("http"), "url" := Str(url)])
  }

  /** As written, registering one server rewrites every other entry through
      `McpServerDef`: a remote entry loses its `url` and gains an empty
      command and argument list. */
  lemma AsWrittenLosesUrl(w: Workstation, r: BuildResult, env: map<string, string>, other: string, url: string)
    requires Join(w.cwd, ".gemini") !in w.mkdirFails
    requires SettingsPath(w.cwd) !in w.writeFails
    requires other != NameAsWritten(r)
    requires ReadFile(w, SettingsPath(w.cwd)) == Parsed(map["mcpServers" := Obj(map[other := HttpEntry(url)])])
    ensures var res := GeminiAsWritten(w, r, env);
      && res.0 == None
      && ReadFile(res.1, SettingsPath(w.cwd)).Parsed?
      && var servers := ReadFile(res.1, SettingsPath(w.cwd)).doc["mcpServers"];
      && servers.Obj? && other in servers.fields
      && servers.fields[other] == EncodeDef(McpServerDef("http", "", [], map[]))
      && "url" !in servers.fields[other].fields
  {
    var doc := map["mcpServers" := Obj(map[other := HttpEntry(url)])];
    var def := DecodeDef(HttpEntry(url)).0;
    assert Field(HttpEntry(url).fields, "command") == Null;
    assert Field(HttpEntry(url).fields, "args") == Null;
    assert Field(HttpEntry(url).fields, "env") == Null;
    assert def == McpServerDef("http", "", [], map[]);
  }

  /** As written, a type mismatch anywhere under `mcpServers` (here a string
      where `args` expects an array) loses every other top-level setting. */
  lemma AsWrittenDropsSettings(w: Workstation, r: BuildResult, env: map<string, string>, key: string, setting: Value, other: string)
    requires Join(w.cwd, ".gemini") !in w.mkdirFails
    requires SettingsPath(w.cwd) !in w.writeFails
    requires key != "mcpServers"
    requires ReadFile(w, SettingsPath(w.cwd)) ==
      Parsed(map[key := setting, "mcpServers" := Obj(map[other := Obj(map["args" := Str("--verbose")])])])
    ensures var res := GeminiAsWritten(w, r, env);
      && res.0 == None
      && ReadFile(res.1, SettingsPath(w.cwd)).Parsed?
      && ReadFile(res.1, SettingsPath(w.cwd)).doc.Keys == {"mcpServers"}
  {
    var doc := map[key := setting, "mcpServers" := Obj(map[other := Obj(map["args" := Str("--verbose")])])];
    var entry := Obj(map["args" := Str("--verbose")]);
    assert Field(entry.fields, "args") == Str("--verbose");
    assert !DecodeDef(entry).1;
    var fields := doc["mcpServers"].fields;
    assert other in fields && fields[other] == entry;
    assert !DecodeOk(doc);
  }

  // ---- the update, corrected ----------------------------------------------

  /** The document a settings file contributes: its top-level object, or an
      empty one when it is missing, unreadable or not an object. */
  function LoadDoc(f: FileState): (doc: Doc)
    ensures f.Parsed? ==> doc == f.doc
    ensures !f.Parsed? ==> doc == map[]
  {
    if f.Parsed? then f.doc else map[]
  }

  /** The server table of a document: `mcpServers` when it is an object, else empty. */
  function ServersOf(doc: Doc): map<string, Value> {
    if "mcpServers" in doc && doc["mcpServers"].Obj? then doc["mcpServers"].fields else map[]
  }

  /** Insert or replace one entry of `mcpServers`, keeping everything else. */
  function UpsertServer(doc: Doc, name: string, entry: Value): (out: Doc)
    ensures out.Keys == doc.Keys + {"mcpServers"}
    ensures forall k :: k in doc && k != "mcpServers" ==> out[k] == doc[k]
    ensures out["mcpServers"] == Obj(ServersOf(doc)[name := entry])
  {
    doc["mcpServers" := Obj(ServersOf(doc)[name := entry])]
  }

  /** Other servers keep their entries, whatever their shape. */
  lemma UpsertKeepsOtherServers(doc: Doc, name: string, entry: Value, other: string)
    requires other != name && other in ServersOf(doc)
    ensures other in ServersOf(UpsertServer(doc, name, entry))
    ensures ServersOf(UpsertServer(doc, name, entry))[other] == ServersOf(doc)[other]
  {
  }

  /** Upserting the same entry twice is upserting it once: the entry is
      replaced, never duplicated. */
  lemma UpsertIdempotent(doc: Doc, name: string, entry: Value)
    ensures UpsertServer(UpsertServer(doc, name, entry), name, entry) == UpsertServer(doc, name, entry)
  {
    var once := UpsertServer(doc, name, entry);
    var table := ServersOf(doc)[name := entry];
    assert ServersOf(once) == table;
    assert table[name := entry] == table;
    assert once["mcpServers" := Obj(table)] == once;
  }

  /** The entry written for a launch spec: the stdio record with the spec's
      command and arguments and the collected environment. */
  function StdioEntry(r: BuildResult, env: map<string, string>): Value {
    EncodeDef(McpServerDef("stdio", r.command, r.args, env))
  }

  /** The read-modify-write of the project's settings file: create the
      directory, read the document (missing, unreadable or malformed reads as
      empty), upsert one server entry, write the document back. */
  function UpsertSettings(w: Workstation, name: string, entry: Value): (res: (Option<InjectError>, Workstation))
    ensures var dir := Join(w.cwd, ".gemini");
      var path := SettingsPath(w.cwd);
      && (dir in w.mkdirFails ==> res == (Some(GeminiDirFailed(dir)), w))
      && (dir !in w.mkdirFails && path in w.writeFails ==> res == (Some(GeminiWriteFailed(path)), w))
      && (dir !in w.mkdirFails && path !in w.writeFails ==> res == (None,
        w.(files := w.files[path := Parsed(UpsertServer(LoadDoc(ReadFile(w, path)), name, entry))])))
  {
    var dir := Join(w.cwd, ".gemini");
    var path := Join(dir, "settings.json");
    if dir in w.mkdirFails then (Some(GeminiDirFailed(dir)), w)
    else
      var doc := UpsertServer(LoadDoc(ReadFile(w, path)), name, entry);
      var written := WriteFile(w, path, doc);
      if written.0 then (None, written.1) else (Some(GeminiWriteFailed(path)), w)
  }

  /** The corrected update: the settings document with one entry upserted
      under the name of the server's clone directory. */
  function GeminiUpdate(w: Workstation, r: BuildResult, env: map<string, string>): (res: (Option<InjectError>, Workstation))
    ensures var dir := Join(w.cwd, ".gemini");
      var path := SettingsPath(w.cwd);
      && (dir in w.mkdirFails ==> res == (Some(GeminiDirFailed(dir)), w))
      && (dir !in w.mkdirFails && path in w.writeFails ==> res == (Some(GeminiWriteFailed(path)), w))
      && (dir !in w.mkdirFails && path !in w.writeFails ==> res == (None,
        w.(files := w.files[path := Parsed(UpsertServer(LoadDoc(ReadFile(w, path)), ServerName(w.cwd, r), StdioEntry(r, env)))])))
  {
    UpsertSettings(w, ServerName(w.cwd, r), StdioEntry(r, env))
  }

  /** After the corrected update, every other top-level setting and every
      other server entry is still there, unchanged, and the new entry decodes
      to the launch spec. */
  lemma UpdatePreserves(w: Workstation, r: BuildResult, env: map<string, string>)
    requires Join(w.cwd, ".gemini") !in w.mkdirFails && SettingsPath(w.cwd) !in w.writeFails
    ensures ReadFile(GeminiUpdate(w, r, env).1, SettingsPath(w.cwd)).Parsed?
    ensures var before := LoadDoc(ReadFile(w, SettingsPath(w.cwd)));
      var after := ReadFile(GeminiUpdate(w, r, env).1, SettingsPath(w.cwd)).doc;
      forall k :: k in before && k != "mcpServers" ==> k in after && after[k] == before[k]
    ensures var before := LoadDoc(ReadFile(w, SettingsPath(w.cwd)));
      var after := ReadFile(GeminiUpdate(w, r, env).1, SettingsPath(w.cwd)).doc;
      forall s :: s in ServersOf(before) && s != ServerName(w.cwd, r) ==>
        s in ServersOf(after) && ServersOf(after)[s] == ServersOf(before)[s]
    ensures var after := ReadFile(GeminiUpdate(w, r, env).1, SettingsPath(w.cwd)).doc;
      && ServerName(w.cwd, r) in ServersOf(after)
      && DecodeDef(ServersOf(after)[ServerName(w.cwd, r)]) == (McpServerDef("stdio", r.command, r.args, env), true)
  {
    var path := SettingsPath(w.cwd);
    var before := LoadDoc(ReadFile(w, path));
    var name := ServerName(w.cwd, r);
    var doc := UpsertServer(before, name, StdioEntry(r, env));
    assert ReadFile(GeminiUpdate(w, r, env).1, path) == Parsed(doc);
    assert ServersOf(doc) == ServersOf(before)[name := StdioEntry(r, env)];
    DefRoundTrip(McpServerDef("stdio", r.command, r.args, env));
  }

  /** Registering the same server twice leaves the same settings file as once. */
  lemma UpdateIdempotent(w: Workstation, r: BuildResult, env: map<string, string>)
    requires Join(w.cwd, ".gemini") !in w.mkdirFails && SettingsPath(w.cwd) !in w.writeFails
    ensures var once := GeminiUpdate(w, r, env).1;
      GeminiUpdate(once, r, env).1.files == once.files
  {
    var path := SettingsPath(w.cwd);
    var doc := LoadDoc(ReadFile(w, path));
    UpsertIdempotent(doc, ServerName(w.cwd, r), StdioEntry(r, env));
  }
}
