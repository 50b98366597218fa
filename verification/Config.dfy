/** Saved servers written as the `mcpServers` block other clients read, and read back. */
module Config {
  import opened Json
  import opened Canonical
  import opened Snapshots

  datatype AuthRef = NoAuth | Bearer(keyringId: string) | OAuth(keyringId: string)

  datatype Spec =
    | Stdio(command: string, args: seq<string>, env: map<string, string>, cwd: Option<string>)
    | Http(url: string, headers: map<string, string>, auth: AuthRef)

  datatype Record = Record(name: string, spec: Spec)

  /** A server read; `token` is a bearer token the file carried. */
  datatype Imported = Imported(name: string, spec: Spec, token: Option<string>)

  datatype Note = NeedsToken | ForSse

  datatype Skip = NotAnObject | NoCommandNoUrl

  datatype Read = ReadOk(server: Imported, note: Option<Note>) | ReadErr(why: Skip)

  datatype ImportedConfig = ImportedConfig(servers: seq<Imported>, skipped: seq<(string, Skip)>, notes: seq<Note>)

  datatype Outcome = Ok(config: ImportedConfig) | NoObject | NoServers

  // --- Objects ---

  /** The entry of `key`, as `get` finds it. */
  function Lookup(entries: seq<(string, Value)>, key: string): Option<Value> {
    if key in Keys(entries) then Some(entries[At(entries, key)].1) else None
  }

  /** A key that is there keeps its place and gets the new value. */
  function Put(entries: seq<(string, Value)>, key: string, v: Value): seq<(string, Value)> {
    if key in Keys(entries) then entries[At(entries, key) := (key, v)] else entries + [(key, v)]
  }

  function Str(v: Option<Value>): Option<string> {
    if v.Some? && v.value.Atom? && v.value.atom.String? then Some(v.value.atom.s) else None
  }

  function Or<T>(x: Option<T>, y: Option<T>): Option<T> {
    if x.Some? then x else y
  }

  // --- Writing ---

  function WrittenMap(m: map<string, string>): Value {
    var keys := Sorted(m.Keys);
    Entries(seq(|keys|, i requires 0 <= i < |keys| => assert keys[i] in keys; (keys[i], Text(m[keys[i]]))))
  }

  const STDIO_KEYS := ["command", "args", "env", "cwd"]
  const HTTP_KEYS := ["url", "headers"]
  const AUTHORIZATION := "Authorization"
  const PLACEHOLDER := "Bearer <token>"

  function StdioFields(spec: Spec): seq<Option<Value>>
    requires spec.Stdio?
  {
    [Some(Text(spec.command)), Some(List(Map(spec.args, Text))),
     if spec.env == map[] then None else Some(WrittenMap(spec.env)), OptText(spec.cwd)]
  }

  /** The headers exported: a bearer token never leaves the keyring. */
  function WrittenHeaders(spec: Spec): map<string, string>
    requires spec.Http?
  {
    if spec.auth.Bearer? then spec.headers[AUTHORIZATION := PLACEHOLDER] else spec.headers
  }

  function HttpFields(spec: Spec): seq<Option<Value>>
    requires spec.Http?
  {
    [Some(Text(spec.url)), if WrittenHeaders(spec) == map[] then None else Some(WrittenMap(WrittenHeaders(spec)))]
  }

  function EntryOf(spec: Spec): Value {
    if spec.Stdio? then Entries(Build(STDIO_KEYS, StdioFields(spec))) else Entries(Build(HTTP_KEYS, HttpFields(spec)))
  }

  function Written(servers: seq<Record>): seq<(string, Value)> {
    if servers == [] then []
    else Put(Written(servers[..|servers| - 1]), servers[|servers| - 1].name, EntryOf(servers[|servers| - 1].spec))
  }

  function Exported(servers: seq<Record>): Value {
    Entries([("mcpServers", Entries(Written(servers)))])
  }

  /** What the user is told is not in the export, by server name. */
  datatype ExportNote = UsesBearer(name: string) | UsesOAuth(name: string)

  function NoteOf(r: Record): seq<ExportNote> {
    match r.spec
    case Stdio(_, _, _, _) => []
    case Http(_, _, NoAuth) => []
    case Http(_, _, Bearer(_)) => [UsesBearer(r.name)]
    case Http(_, _, OAuth(_)) => [UsesOAuth(r.name)]
  }

  function NotesOf(servers: seq<Record>): seq<ExportNote> {
    if servers == [] then [] else NotesOf(servers[..|servers| - 1]) + NoteOf(servers[|servers| - 1])
  }

  lemma PutKeepsOthers(entries: seq<(string, Value)>, key: string, v: Value, other: string)
    requires Distinct(Keys(entries))
    ensures Distinct(Keys(Put(entries, key, v)))
    ensures Lookup(Put(entries, key, v), other) == if other == key then Some(v) else Lookup(entries, other)
  {
    var more := Put(entries, key, v);
    if key in Keys(entries) {
      assert Keys(more) == Keys(entries);
      if other in Keys(entries) {
        assert more[At(more, other)].0 == other == entries[At(entries, other)].0;
        assert Keys(more)[At(more, other)] == Keys(more)[At(entries, other)];
      }
    } else {
      assert Keys(more) == Keys(entries) + [key];
      if other in Keys(entries) {
        assert more[At(entries, other)] == entries[At(entries, other)];
        assert Keys(more)[At(more, other)] == other == Keys(more)[At(entries, other)];
      }
    }
  }

  /** The last server with a name. */
  function LastNamed(servers: seq<Record>, name: string): Option<Record> {
    if servers == [] then None
    else if servers[|servers| - 1].name == name then Some(servers[|servers| - 1])
    else LastNamed(servers[..|servers| - 1], name)
  }

  /** Every name has one entry: that of the last server with the name. */
  lemma {:induction false} TheLastOfANameIsWritten(servers: seq<Record>, name: string)
    ensures Distinct(Keys(Written(servers)))
    ensures Lookup(Written(servers), name)
         == match LastNamed(servers, name) case None => None case Some(r) => Some(EntryOf(r.spec))
  {
    hide EntryOf, Lookup, Put;
    if servers == [] {
      assert Lookup([], name) == None by {
        LookupEmpty(name);
      }
    } else {
      var (before, last) := (servers[..|servers| - 1], servers[|servers| - 1]);
      TheLastOfANameIsWritten(before, name);
      PutKeepsOthers(Written(before), last.name, EntryOf(last.spec), name);
    }
  }

  lemma LookupEmpty(key: string)
    ensures Lookup([], key) == None
  {
  }

  method ClientConfig(servers: seq<Record>) returns (value: Value, notes: seq<ExportNote>)
    ensures value == Exported(servers) && notes == NotesOf(servers)
  {
    hide EntryOf;
    var entries: seq<(string, Value)> := [];
    notes := [];
    for i := 0 to |servers|
      invariant entries == Written(servers[..i]) && notes == NotesOf(servers[..i])
    {
      assert servers[..i + 1][..i] == servers[..i];
      match servers[i].spec {
        case Stdio(_, _, _, _) =>
        case Http(_, _, NoAuth) =>
        case Http(_, _, Bearer(_)) => notes := notes + [UsesBearer(servers[i].name)];
        case Http(_, _, OAuth(_)) => notes := notes + [UsesOAuth(servers[i].name)];
      }
      entries := Put(entries, servers[i].name, EntryOf(servers[i].spec));
    }
    assert servers[..|servers|] == servers;
    value := Entries([("mcpServers", Entries(entries))]);
  }

  // --- Reading ---

  predicate White(c: char) {
    || '\t' <= c <= '\r' || c == ' ' || c == '\U{0085}' || c == '\U{00A0}' || c == '\U{1680}'
    || '\U{2000}' <= c <= '\U{200A}' || c == '\U{2028}' || c == '\U{2029}' || c == '\U{202F}'
    || c == '\U{205F}' || c == '\U{3000}'
  }

  function TrimStart(s: string): string {
    if s != [] && White(s[0]) then TrimStart(s[1..]) else s
  }

  function TrimEnd(s: string): string {
    if s != [] && White(s[|s| - 1]) then TrimEnd(s[..|s| - 1]) else s
  }

  function Trim(s: string): string {
    TrimEnd(TrimStart(s))
  }

  /** `prefix` removed from the start, as often as it is there. */
  function Unprefixed(s: string, prefix: string): string
    requires prefix != []
  {
    if prefix <= s then Unprefixed(s[|prefix|..], prefix) else s
  }

  function LowerAscii(s: string): string {
    seq(|s|, i requires 0 <= i < |s| => if 'A' <= s[i] <= 'Z' then 'a' + (s[i] - 'A') else s[i])
  }

  function TokenOf(header: string): Option<string> {
    var value := Trim(Unprefixed(header, "Bearer"));
    if value == "" || value[0] == '<' || value[0] == '$' || LowerAscii(value) == "bearer" then None else Some(value)
  }

  /** The texts of an object's fields; fields of other types are dropped. */
  function TextsOf(entries: seq<(string, Value)>): map<string, string> {
    map key | key in Keys(entries) && Str(Lookup(entries, key)).Some? :: Str(Lookup(entries, key)).value
  }

  function MapOf(v: Option<Value>): map<string, string> {
    if v.Some? && v.value.Entries? then TextsOf(v.value.entries) else map[]
  }

  function Strings(items: seq<Value>): seq<string> {
    if items == [] then []
    else
      var last := Str(Some(items[|items| - 1]));
      Strings(items[..|items| - 1]) + if last.Some? then [last.value] else []
  }

  /** Of a list, the texts are read, in order, and what is no text is left out. */
  lemma {:induction false} StringsAreTheTexts(items: seq<Value>, i: nat)
    requires i < |items| && Str(Some(items[i])).Some?
    ensures var k := |Strings(items[..i])|;
            k < |Strings(items)| && Strings(items)[k] == Str(Some(items[i])).value
  {
    var n := |items| - 1;
    if i < n {
      assert items[..n][..i] == items[..i];
      StringsAreTheTexts(items[..n], i);
    }
  }

  lemma {:induction false} StringsAreRead(items: seq<Value>, k: nat)
    requires k < |Strings(items)|
    ensures exists i :: 0 <= i < |items| && Str(Some(items[i])) == Some(Strings(items)[k])
  {
    var n := |items| - 1;
    if k < |Strings(items[..n])| {
      StringsAreRead(items[..n], k);
    }
  }

  function ReadHttp(name: string, url: string, headers: map<string, string>, kind: string): Read {
    var left := headers - {AUTHORIZATION};
    var header := if AUTHORIZATION in headers then Some(headers[AUTHORIZATION]) else None;
    var token := if header.Some? then TokenOf(header.value) else None;
    var note := if header.Some? && token.None? then Some(NeedsToken) else if kind == "sse" then Some(ForSse) else None;
    ReadOk(Imported(name, Http(url, left, if header.Some? then Bearer(name) else NoAuth), token), note)
  }

  function ReadStdio(name: string, command: string, args: Option<Value>, env: Option<Value>, cwd: Option<Value>): Read {
    var spec := Stdio(command, if args.Some? && args.value.List? then Strings(args.value.items) else [], MapOf(env),
                      Str(cwd));
    ReadOk(Imported(name, spec, None), None)
  }

  function TextAt(entries: seq<(string, Value)>, key: string): Option<string> {
    Str(Lookup(entries, key))
  }

  function ReadEntry(name: string, entry: Value): Read {
    if !entry.Entries? then ReadErr(NotAnObject)
    else
      var e := entry.entries;
      var kind := Or(TextAt(e, "type"), TextAt(e, "transport"));
      var url := Or(TextAt(e, "url"), TextAt(e, "serverUrl"));
      var command := TextAt(e, "command");
      if url.Some? then ReadHttp(name, url.value, MapOf(Lookup(e, "headers")), if kind.Some? then kind.value else "")
      else if command.Some? then ReadStdio(name, command.value, Lookup(e, "args"), Lookup(e, "env"), Lookup(e, "cwd"))
      else ReadErr(NoCommandNoUrl)
  }

  function ReadAll(entries: seq<(string, Value)>): ImportedConfig {
    if entries == [] then ImportedConfig([], [], [])
    else
      var (before, last) := (ReadAll(entries[..|entries| - 1]), entries[|entries| - 1]);
      match ReadEntry(last.0, last.1)
      case ReadOk(server, note) =>
        before.(servers := before.servers + [server], notes := before.notes + if note.Some? then [note.value] else [])
      case ReadErr(why) => before.(skipped := before.skipped + [(last.0, why)])
  }

  function EntriesIn(v: Value): Option<seq<(string, Value)>> {
    var found := if v.Entries? then Or(Lookup(v.entries, "mcpServers"), Lookup(v.entries, "servers")) else None;
    var block := if found.Some? then found.value else v;
    if block.Entries? then Some(block.entries) else None
  }

  /** What an entry is read as: an HTTP server by the text under `url`, or else `serverUrl`; a local one by its
      `command`; nothing else. A note asks for the token where the header holds none, and tells of SSE by the
      text under `type`, or else `transport`. */
  lemma WhatAnEntryIs(name: string, e: seq<(string, Value)>)
    ensures var (read, url) := (ReadEntry(name, Entries(e)), TextAt(e, "url"));
            var address := if url.Some? then url else TextAt(e, "serverUrl");
            var kind := if TextAt(e, "type").Some? then TextAt(e, "type") else TextAt(e, "transport");
            var headers := MapOf(Lookup(e, "headers"));
            && (read.ReadErr? <==> address.None? && TextAt(e, "command").None?)
            && (read.ReadOk? ==> read.server.name == name)
            && (address.Some? ==>
                  && read.ReadOk? && read.server.spec.Http? && read.server.spec.url == address.value
                  && read.server.spec.headers == headers - {AUTHORIZATION}
                  && (read.server.spec.auth == if AUTHORIZATION in headers then Bearer(name) else NoAuth)
                  && (read.server.token == if AUTHORIZATION in headers then TokenOf(headers[AUTHORIZATION]) else None)
                  && (read.note == Some(NeedsToken) <==> AUTHORIZATION in headers && read.server.token.None?)
                  && (read.note == Some(ForSse) <==> read.note != Some(NeedsToken) && kind == Some("sse")))
            && (address.None? && TextAt(e, "command").Some? ==>
                  read.server.spec.Stdio? && read.server.spec.command == TextAt(e, "command").value
                  && read.server.spec.env == MapOf(Lookup(e, "env")) && read.server.spec.cwd == TextAt(e, "cwd")
                  && read.server.token == None && read.note == None)
    ensures forall v: Value :: !v.Entries? ==> ReadEntry(name, v) == ReadErr(NotAnObject)
  {
    hide Lookup, MapOf, TokenOf, Strings;
  }

  /** Every entry of a file is either read or skipped, and both keep their order. */
  lemma {:induction false} EveryEntryIsAccountedFor(entries: seq<(string, Value)>, i: nat)
    requires i < |entries|
    ensures |ReadAll(entries).servers| + |ReadAll(entries).skipped| == |entries|
    ensures var (read, all, before) := (ReadEntry(entries[i].0, entries[i].1), ReadAll(entries), ReadAll(entries[..i]));
            && (read.ReadOk? ==> |before.servers| < |all.servers| && all.servers[|before.servers|] == read.server)
            && (read.ReadErr? ==> |before.skipped| < |all.skipped|
                                  && all.skipped[|before.skipped|] == (entries[i].0, read.why))
            && (read.ReadOk? && read.note.Some? ==>
                  |before.notes| < |all.notes| && all.notes[|before.notes|] == read.note.value)
  {
    hide ReadEntry;
    var n := |entries| - 1;
    if n > 0 {
      EveryEntryIsAccountedFor(entries[..n], if i < n then i else 0);
    }
    if i < n {
      assert entries[..n][..i] == entries[..i];
    }
  }

  function Repeated(s: string, n: nat): string {
    if n == 0 then [] else s + Repeated(s, n - 1)
  }

  /** What is left does not start with the prefix, and is what followed all of them. */
  lemma {:induction false} UnprefixedIsTheRest(s: string, prefix: string) returns (n: nat)
    requires prefix != []
    ensures s == Repeated(prefix, n) + Unprefixed(s, prefix) && !(prefix <= Unprefixed(s, prefix))
    decreases |s|
  {
    n := 0;
    if prefix <= s {
      var rest := s[|prefix|..];
      var more := UnprefixedIsTheRest(rest, prefix);
      n := more + 1;
      var (left, again) := (Unprefixed(s, prefix), Repeated(prefix, more));
      assert left == Unprefixed(rest, prefix) && Repeated(prefix, n) == prefix + again && s == prefix + rest;
      hide Unprefixed, Repeated;
      assert prefix + (again + left) == (prefix + again) + left;
    }
  }

  /** Where the servers are looked for: under `mcpServers`, else under `servers`, else in the object itself. */
  lemma WhereServersAre(v: Value, found: seq<(string, Value)>)
    ensures EntriesIn(v) == Some(found) <==>
              v.Entries? &&
              if "mcpServers" in Keys(v.entries) then Lookup(v.entries, "mcpServers") == Some(Entries(found))
              else if "servers" in Keys(v.entries) then Lookup(v.entries, "servers") == Some(Entries(found))
              else v.entries == found
  {
    hide Keys, At;
  }

  method ReadClientConfig(v: Value) returns (outcome: Outcome)
    ensures outcome == if EntriesIn(v).None? then NoObject
                       else if EntriesIn(v).value == [] then NoServers else Ok(ReadAll(EntriesIn(v).value))
  {
    hide ReadEntry;
    var found := EntriesIn(v);
    if found.None? {
      return NoObject;
    }
    var entries := found.value;
    var config := ImportedConfig([], [], []);
    for i := 0 to |entries|
      invariant config == ReadAll(entries[..i])
      invariant |config.servers| + |config.skipped| == i
    {
      assert entries[..i + 1][..i] == entries[..i];
      match ReadEntry(entries[i].0, entries[i].1)
      case ReadOk(server, note) =>
        config := config.(servers := config.servers + [server],
                          notes := config.notes + if note.Some? then [note.value] else []);
      case ReadErr(why) =>
        config := config.(skipped := config.skipped + [(entries[i].0, why)]);
    }
    assert entries[..|entries|] == entries;
    if config.servers == [] && config.skipped == [] {
      return NoServers;
    }
    outcome := Ok(config);
  }

  // --- Round trip ---

  /** A server as reading its own export gives it back: a bearer server without its token, which stays
      in the keyring, and an OAuth server without auth, which the next client runs itself. */
  function Expected(r: Record): Imported {
    var spec :=
      match r.spec
      case Stdio(_, _, _, _) => r.spec
      case Http(url, headers, auth) => Http(url, headers, if auth.Bearer? then Bearer(r.name) else NoAuth);
    Imported(r.name, spec, None)
  }

  /** No header of its own that only a keyring token should make. */
  predicate NoLiteralAuthorization(spec: Spec) {
    spec.Http? ==> AUTHORIZATION !in spec.headers
  }

  lemma {:induction false} TokensMeanBearer(entries: seq<(string, Value)>, i: nat)
    requires i < |ReadAll(entries).servers| && ReadAll(entries).servers[i].token.Some?
    ensures ReadAll(entries).servers[i].spec.Http? && ReadAll(entries).servers[i].spec.auth.Bearer?
  {
    if entries != [] {
      var before := entries[..|entries| - 1];
      if i < |ReadAll(before).servers| {
        assert ReadAll(entries).servers[i] == ReadAll(before).servers[i];
        TokensMeanBearer(before, i);
      }
    }
  }

  lemma LookupBuilt(keys: seq<string>, values: seq<Option<Value>>, i: nat)
    requires |keys| == |values| && Distinct(keys) && i < |keys|
    ensures Lookup(Build(keys, values), keys[i]) == values[i]
  {
    BuildHas(keys, values, i);
    var built := Build(keys, values);
    hide Build, Distinct;
    if keys[i] in Keys(built) {
      assert built[At(built, keys[i])] in built;
    }
  }

  lemma LookupNone(keys: seq<string>, values: seq<Option<Value>>, key: string)
    requires |keys| == |values| && key !in keys
    ensures Lookup(Build(keys, values), key) == None
  {
    BuildKeys(keys, values);
    var built := Build(keys, values);
    hide Build;
    forall i | 0 <= i < |built| ensures Keys(built)[i] != key {
      assert built[i] in built;
    }
  }

  lemma LookupWritten(m: map<string, string>, key: string)
    ensures WrittenMap(m).Entries?
    ensures key in Keys(WrittenMap(m).entries) <==> key in m
    ensures Lookup(WrittenMap(m).entries, key) == if key in m then Some(Text(m[key])) else None
  {
    var entries := WrittenMap(m).entries;
    assert Keys(entries) == Sorted(m.Keys);
    assert forall i :: 0 <= i < |entries| ==> entries[i].0 in m && entries[i].1 == Text(m[entries[i].0]) by {
      forall i | 0 <= i < |entries| ensures entries[i].0 in m && entries[i].1 == Text(m[entries[i].0]) {
        assert Sorted(m.Keys)[i] in Sorted(m.Keys);
      }
    }
    hide Sorted, WrittenMap;
  }

  lemma TextsAre(entries: seq<(string, Value)>, m: map<string, string>)
    requires forall key :: key in Keys(entries) <==> key in m
    requires forall key :: key in m ==> Lookup(entries, key) == Some(Text(m[key]))
    ensures TextsOf(entries) == m
  {
    hide Lookup, Keys;
  }

  lemma MapComesBack(m: map<string, string>)
    ensures MapOf(Some(WrittenMap(m))) == m && MapOf(None) == map[]
  {
    hide WrittenMap, Lookup, Keys, TextsOf;
    LookupWritten(m, "");
    var entries := WrittenMap(m).entries;
    forall key ensures key in Keys(entries) <==> key in m {
      LookupWritten(m, key);
    }
    forall key | key in m ensures Lookup(entries, key) == Some(Text(m[key])) {
      LookupWritten(m, key);
    }
    TextsAre(entries, m);
  }

  lemma {:induction false} ArgsComeBack(args: seq<string>)
    ensures Strings(Map(args, Text)) == args
  {
    if args != [] {
      var n := |args| - 1;
      ArgsComeBack(args[..n]);
      assert Map(args, Text)[..n] == Map(args[..n], Text);
    }
  }

  lemma EntryKeysDiffer()
    ensures Distinct(STDIO_KEYS) && Distinct(HTTP_KEYS)
    ensures "url" !in STDIO_KEYS && "serverUrl" !in STDIO_KEYS && "type" !in STDIO_KEYS && "transport" !in STDIO_KEYS
    ensures "type" !in HTTP_KEYS && "transport" !in HTTP_KEYS
  {
  }

  lemma StdioIsRead(r: Record)
    requires r.spec.Stdio?
    ensures var fields := StdioFields(r.spec);
            ReadEntry(r.name, EntryOf(r.spec)) == ReadStdio(r.name, r.spec.command, fields[1], fields[2], fields[3])
  {
    var fields := StdioFields(r.spec);
    var e := Build(STDIO_KEYS, fields);
    EntryKeysDiffer();
    LookupBuilt(STDIO_KEYS, fields, 0);
    LookupBuilt(STDIO_KEYS, fields, 1);
    LookupBuilt(STDIO_KEYS, fields, 2);
    LookupBuilt(STDIO_KEYS, fields, 3);
    LookupNone(STDIO_KEYS, fields, "url");
    LookupNone(STDIO_KEYS, fields, "serverUrl");
    assert EntryOf(r.spec) == Entries(e) && fields[0] == Some(Text(r.spec.command));
    hide Build, Lookup, Distinct, WrittenMap, Map, StdioFields, ReadStdio, EntryOf, MapOf;
    assert Lookup(e, "command") == fields[0] && Lookup(e, "args") == fields[1];
    assert Lookup(e, "env") == fields[2] && Lookup(e, "cwd") == fields[3];
    assert Lookup(e, "url") == None && Lookup(e, "serverUrl") == None;
  }

  lemma StdioComesBack(r: Record)
    requires r.spec.Stdio?
    ensures ReadEntry(r.name, EntryOf(r.spec)) == ReadOk(Expected(r), None)
  {
    StdioIsRead(r);
    ArgsComeBack(r.spec.args);
    MapComesBack(r.spec.env);
    hide WrittenMap, Map, Strings, MapOf, ReadEntry, EntryOf;
  }

  predicate Trimmed(s: string) {
    s != "" && !White(s[0]) && !White(s[|s| - 1])
  }

  lemma {:induction false} TrimStartTrims(s: string)
    ensures TrimStart(s) != "" ==> !White(TrimStart(s)[0])
    ensures s != "" && !White(s[|s| - 1]) ==> TrimStart(s) != "" && !White(TrimStart(s)[|TrimStart(s)| - 1])
  {
    if s != [] && White(s[0]) {
      TrimStartTrims(s[1..]);
    }
  }

  lemma {:induction false} TrimEndTrims(s: string)
    ensures TrimEnd(s) <= s && (TrimEnd(s) != "" ==> !White(TrimEnd(s)[|TrimEnd(s)| - 1]))
  {
    if s != [] && White(s[|s| - 1]) {
      TrimEndTrims(s[..|s| - 1]);
    }
  }

  /** What `Bearer` is followed by is read as the token, exactly when it has no space around it and is
      none of the placeholders. */
  lemma TokenComesBack(t: string)
    ensures TokenOf("Bearer " + t) == Some(t) <==> Trimmed(t) && t[0] != '<' && t[0] != '$' && LowerAscii(t) != "bearer"
  {
    var (header, rest) := ("Bearer " + t, " " + t);
    assert "Bearer" <= header && header[6..] == rest;
    assert rest[0] != "Bearer"[0];
    assert Unprefixed(rest, "Bearer") == rest;
    assert Unprefixed(header, "Bearer") == rest;
    assert rest[1..] == t && TrimStart(rest) == TrimStart(t);
    TrimStartTrims(t);
    TrimEndTrims(TrimStart(t));
    hide LowerAscii, White;
    assert Trimmed(t) ==> Trim(rest) == t;
    assert Trim(rest) != "" ==> Trimmed(Trim(rest));
  }

  lemma PlaceholderIsNoToken()
    ensures TokenOf(PLACEHOLDER) == None
  {
    var rest := " <token>";
    assert "Bearer" <= PLACEHOLDER && PLACEHOLDER[6..] == rest;
    assert rest[0] != "Bearer"[0];
    assert Unprefixed(rest, "Bearer") == rest;
    assert Unprefixed(PLACEHOLDER, "Bearer") == rest;
    assert rest[1..] == "<token>";
    assert TrimStart(rest) == "<token>";
    assert TrimEnd("<token>") == "<token>";
  }

  lemma HeadersComeBack(spec: Spec)
    requires spec.Http?
    ensures MapOf(HttpFields(spec)[1]) == WrittenHeaders(spec)
  {
    MapComesBack(WrittenHeaders(spec));
    hide WrittenMap, MapOf, WrittenHeaders;
  }

  lemma HttpIsRead(r: Record)
    requires r.spec.Http?
    ensures ReadEntry(r.name, EntryOf(r.spec)) == ReadHttp(r.name, r.spec.url, WrittenHeaders(r.spec), "")
  {
    var fields := HttpFields(r.spec);
    var e := Build(HTTP_KEYS, fields);
    EntryKeysDiffer();
    LookupBuilt(HTTP_KEYS, fields, 0);
    LookupBuilt(HTTP_KEYS, fields, 1);
    LookupNone(HTTP_KEYS, fields, "type");
    LookupNone(HTTP_KEYS, fields, "transport");
    HeadersComeBack(r.spec);
    assert EntryOf(r.spec) == Entries(e) && fields[0] == Some(Text(r.spec.url));
    hide Build, Lookup, Distinct, WrittenMap, MapOf, ReadHttp, HttpFields, EntryOf, WrittenHeaders;
    assert Lookup(e, "url") == fields[0] && Lookup(e, "headers") == fields[1];
    assert Lookup(e, "type") == None && Lookup(e, "transport") == None;
    assert TextAt(e, "type") == None && TextAt(e, "transport") == None && TextAt(e, "url") == Some(r.spec.url);
    hide TextAt, Text, Str, ReadStdio;
  }

  /** An HTTP server comes back as expected exactly when it carries no `Authorization` header of its own. */
  lemma HttpComesBack(r: Record)
    requires r.spec.Http?
    ensures var read := ReadEntry(r.name, EntryOf(r.spec));
            && read.ReadOk?
            && (read.server == Expected(r) <==> NoLiteralAuthorization(r.spec))
  {
    HttpIsRead(r);
    PlaceholderIsNoToken();
    hide ReadEntry, EntryOf, TokenOf;
    var left := WrittenHeaders(r.spec) - {AUTHORIZATION};
    assert AUTHORIZATION !in left;
    if NoLiteralAuthorization(r.spec) {
      assert left == r.spec.headers;
    }
  }

  /** One server's entry comes back as expected, as from any file, exactly when it carries no
      `Authorization` header of its own. */
  lemma EntryComesBack(r: Record)
    ensures ReadEntry(r.name, EntryOf(r.spec)).ReadOk?
    ensures ReadEntry(r.name, EntryOf(r.spec)).server == Expected(r) <==> NoLiteralAuthorization(r.spec)
  {
    hide ReadEntry, EntryOf;
    if r.spec.Stdio? {
      StdioComesBack(r);
    } else {
      HttpComesBack(r);
    }
  }

  predicate HasBearer(r: Record) {
    r.spec.Http? && r.spec.auth.Bearer?
  }

  predicate HasOAuth(r: Record) {
    r.spec.Http? && r.spec.auth.OAuth?
  }

  lemma NoteNames(r: Record, name: string)
    ensures UsesBearer(name) in NoteOf(r) <==> r.name == name && HasBearer(r)
    ensures UsesOAuth(name) in NoteOf(r) <==> r.name == name && HasOAuth(r)
  {
  }

  /** The notes name exactly the servers whose authorization the export leaves out. */
  lemma {:induction false} NotesNameThem(servers: seq<Record>, name: string)
    ensures UsesBearer(name) in NotesOf(servers) <==>
              exists i :: 0 <= i < |servers| && servers[i].name == name && HasBearer(servers[i])
    ensures UsesOAuth(name) in NotesOf(servers) <==>
              exists i :: 0 <= i < |servers| && servers[i].name == name && HasOAuth(servers[i])
  {
    hide HasBearer, HasOAuth, NoteOf;
    if servers != [] {
      var n := |servers| - 1;
      NoteNames(servers[n], name);
      NotesNameThem(servers[..n], name);
      assert forall i :: 0 <= i < n ==> servers[..n][i] == servers[i];
    }
  }

  /** An entry reads back as the server it was written for exactly when that has no `Authorization` header
      of its own, no OAuth, and a bearer token only in the keyring entry of its name. */
  lemma ComesBackAsWritten(r: Record)
    ensures ReadEntry(r.name, EntryOf(r.spec)).ReadOk?
    ensures ReadEntry(r.name, EntryOf(r.spec)).server == Imported(r.name, r.spec, None) <==>
              NoLiteralAuthorization(r.spec) && !HasOAuth(r) && (HasBearer(r) ==> r.spec.auth.keyringId == r.name)
  {
    hide EntryOf;
    EntryComesBack(r);
    if r.spec.Http? && !NoLiteralAuthorization(r.spec) {
      HttpIsRead(r);
    }
    hide ReadEntry;
  }

  /** So a server without a note does exactly when it has no `Authorization` header of its own. */
  lemma WhatIsLostIsNoted(servers: seq<Record>, i: nat)
    requires i < |servers|
    requires UsesBearer(servers[i].name) !in NotesOf(servers) && UsesOAuth(servers[i].name) !in NotesOf(servers)
    ensures var r := servers[i];
            ReadEntry(r.name, EntryOf(r.spec)).ReadOk?
            && (ReadEntry(r.name, EntryOf(r.spec)).server == Imported(r.name, r.spec, None) <==>
                  NoLiteralAuthorization(r.spec))
  {
    hide ReadEntry, EntryOf, NoLiteralAuthorization;
    NotesNameThem(servers, servers[i].name);
    assert !HasBearer(servers[i]) && !HasOAuth(servers[i]);
    ComesBackAsWritten(servers[i]);
  }

  predicate UniqueNames(servers: seq<Record>) {
    forall i, j :: 0 <= i < j < |servers| ==> servers[i].name != servers[j].name
  }

  function AllExpected(servers: seq<Record>): seq<Imported> {
    seq(|servers|, i requires 0 <= i < |servers| => Expected(servers[i]))
  }

  /** Distinct names are written one after another, in order. */
  lemma {:induction false} WrittenInOrder(servers: seq<Record>)
    requires UniqueNames(servers)
    ensures |Written(servers)| == |servers|
    ensures forall i :: 0 <= i < |servers| ==> Written(servers)[i] == (servers[i].name, EntryOf(servers[i].spec))
  {
    hide EntryOf;
    if servers != [] {
      var n := |servers| - 1;
      WrittenInOrder(servers[..n]);
      var before := Written(servers[..n]);
      forall i | 0 <= i < |before| ensures Keys(before)[i] != servers[n].name {
        assert servers[i].name != servers[n].name;
      }
    }
  }

  lemma {:induction false} ReadsInOrder(entries: seq<(string, Value)>, servers: seq<Record>)
    requires |entries| == |servers|
    requires forall i :: 0 <= i < |servers| ==> entries[i] == (servers[i].name, EntryOf(servers[i].spec))
    ensures ReadAll(entries).skipped == [] && |ReadAll(entries).servers| == |servers|
    ensures ReadAll(entries).servers == AllExpected(servers)
        <==> forall i :: 0 <= i < |servers| ==> NoLiteralAuthorization(servers[i].spec)
  {
    hide EntryOf, ReadEntry, Expected, NoLiteralAuthorization;
    if servers != [] {
      var n := |servers| - 1;
      ReadsInOrder(entries[..n], servers[..n]);
      EntryComesBack(servers[n]);
      var (read, before) := (ReadAll(entries).servers, ReadAll(entries[..n]).servers);
      assert read == before + [ReadEntry(servers[n].name, EntryOf(servers[n].spec)).server];
      assert AllExpected(servers) == AllExpected(servers[..n]) + [Expected(servers[n])];
      assert read[..n] == before && AllExpected(servers)[..n] == AllExpected(servers[..n]);
      assert read[n] == ReadEntry(servers[n].name, EntryOf(servers[n].spec)).server;
      assert AllExpected(servers)[n] == Expected(servers[n]);
      assert forall i :: 0 <= i < n ==> servers[..n][i] == servers[i];
      if read == AllExpected(servers) {
        assert before == AllExpected(servers[..n]);
      }
    }
  }

  /** Reading back what was written gives the same servers in the same order, none skipped, exactly
      when none carries an `Authorization` header of its own. */
  lemma RoundTrip(servers: seq<Record>)
    requires servers != [] && UniqueNames(servers)
    ensures EntriesIn(Exported(servers)) == Some(Written(servers)) && Written(servers) != []
    ensures var back := ReadAll(Written(servers));
            && back.skipped == [] && |back.servers| == |servers|
            && (back.servers == AllExpected(servers) <==>
                  forall i :: 0 <= i < |servers| ==> NoLiteralAuthorization(servers[i].spec))
  {
    WrittenInOrder(servers);
    ReadsInOrder(Written(servers), servers);
    OneEntry(Entries(Written(servers)));
    hide Written, ReadAll, AllExpected, NoLiteralAuthorization, EntryOf, Lookup;
  }

  lemma OneEntry(v: Value)
    ensures Lookup([("mcpServers", v)], "mcpServers") == Some(v)
  {
    assert Keys([("mcpServers", v)])[0] == "mcpServers";
  }
}
