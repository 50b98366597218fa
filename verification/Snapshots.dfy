/** What a server advertised at one moment, and the content its digest is taken of. */
module Snapshots {
  import opened Json
  import opened Canonical

  datatype ToolInfo = ToolInfo(name: string, title: Option<string>, description: Option<string>, inputSchema: Value,
                               outputSchema: Option<Value>, annotations: Option<Value>, extra: seq<(string, Value)>)

  datatype ResourceInfo = ResourceInfo(uri: string, name: string, title: Option<string>, description: Option<string>,
                                       mimeType: Option<string>, size: Option<nat>, extra: seq<(string, Value)>)

  datatype TemplateInfo = TemplateInfo(uriTemplate: string, name: string, title: Option<string>,
                                       description: Option<string>,
                                       mimeType: Option<string>, extra: seq<(string, Value)>)

  datatype Argument = Argument(name: string, title: Option<string>, description: Option<string>, required: Option<bool>)

  datatype PromptInfo = PromptInfo(name: string, title: Option<string>, description: Option<string>,
                                   arguments: seq<Argument>, extra: seq<(string, Value)>)

  datatype Snapshot = Snapshot(
    protocolVersion: string, serverInfo: Value, capabilities: Value, instructions: Option<string>,
    tools: seq<ToolInfo>, resources: seq<ResourceInfo>, templates: seq<TemplateInfo>, prompts: seq<PromptInfo>,
    listFailures: seq<string>, takenAt: int)

  // --- Objects with fields left out when they have no value ---

  function Build(keys: seq<string>, values: seq<Option<Value>>): seq<(string, Value)>
    requires |keys| == |values|
  {
    if keys == [] then []
    else
      var n := |keys| - 1;
      Build(keys[..n], values[..n]) + if values[n].Some? then [(keys[n], values[n].value)] else []
  }

  function Text(s: string): Value { Atom(String(s)) }

  function OptText(s: Option<string>): Option<Value> {
    if s.Some? then Some(Text(s.value)) else None
  }

  function OptMeaning(v: Option<Value>): Option<Json> {
    if v.Some? then Some(Meaning(v.value)) else None
  }

  const TOOL_KEYS := ["name", "title", "description", "inputSchema", "outputSchema", "annotations"]
  const RESOURCE_KEYS := ["uri", "name", "title", "description", "mimeType", "size"]
  const TEMPLATE_KEYS := ["uriTemplate", "name", "title", "description", "mimeType"]
  const ARGUMENT_KEYS := ["name", "title", "description", "required"]
  const PROMPT_KEYS := ["name", "title", "description", "arguments"]
  const SNAPSHOT_KEYS := ["protocolVersion", "serverInfo", "capabilities", "instructions",
                          "tools", "resources", "resourceTemplates", "prompts"]

  function ToolFields(t: ToolInfo): seq<Option<Value>> {
    [Some(Text(t.name)), OptText(t.title), OptText(t.description), Some(t.inputSchema), t.outputSchema, t.annotations]
  }

  function ToolContent(t: ToolInfo): Value {
    Entries(Build(TOOL_KEYS, ToolFields(t)) + t.extra)
  }

  function ResourceFields(r: ResourceInfo): seq<Option<Value>> {
    [Some(Text(r.uri)), Some(Text(r.name)), OptText(r.title), OptText(r.description), OptText(r.mimeType),
     if r.size.Some? then Some(Atom(Number(r.size.value as real))) else None]
  }

  function ResourceContent(r: ResourceInfo): Value {
    Entries(Build(RESOURCE_KEYS, ResourceFields(r)) + r.extra)
  }

  function TemplateFields(t: TemplateInfo): seq<Option<Value>> {
    [Some(Text(t.uriTemplate)), Some(Text(t.name)), OptText(t.title), OptText(t.description), OptText(t.mimeType)]
  }

  function TemplateContent(t: TemplateInfo): Value {
    Entries(Build(TEMPLATE_KEYS, TemplateFields(t)) + t.extra)
  }

  function ArgumentFields(a: Argument): seq<Option<Value>> {
    [Some(Text(a.name)), OptText(a.title), OptText(a.description),
     if a.required.Some? then Some(Atom(Bool(a.required.value))) else None]
  }

  function ArgumentContent(a: Argument): Value {
    Entries(Build(ARGUMENT_KEYS, ArgumentFields(a)) + [])
  }

  function Map<T>(items: seq<T>, f: T -> Value): seq<Value> {
    seq(|items|, i requires 0 <= i < |items| => f(items[i]))
  }

  function PromptFields(p: PromptInfo): seq<Option<Value>> {
    [Some(Text(p.name)), OptText(p.title), OptText(p.description),
     if p.arguments == [] then None else Some(List(Map(p.arguments, ArgumentContent)))]
  }

  function PromptContent(p: PromptInfo): Value {
    Entries(Build(PROMPT_KEYS, PromptFields(p)) + p.extra)
  }

  function SnapshotFields(s: Snapshot): seq<Option<Value>> {
    [Some(Text(s.protocolVersion)), Some(s.serverInfo), Some(s.capabilities), OptText(s.instructions),
     Some(List(Map(s.tools, ToolContent))), Some(List(Map(s.resources, ResourceContent))),
     Some(List(Map(s.templates, TemplateContent))), Some(List(Map(s.prompts, PromptContent)))]
  }

  /** Everything but when the snapshot was taken and which lists failed. */
  function Content(s: Snapshot): Value {
    Entries(Build(SNAPSHOT_KEYS, SnapshotFields(s)) + [])
  }

  // --- What equal content means ---

  predicate Disjoint(keys: seq<string>, extra: seq<(string, Value)>) {
    forall i, j :: 0 <= i < |keys| && 0 <= j < |extra| ==> keys[i] != extra[j].0
  }

  lemma {:induction false} BuildHas(keys: seq<string>, values: seq<Option<Value>>, i: nat)
    requires |keys| == |values| && Distinct(keys) && i < |keys|
    ensures values[i].Some? <==> keys[i] in Keys(Build(keys, values))
    ensures forall e :: e in Build(keys, values) ==> e.0 in keys && (e.0 == keys[i] ==> values[i] == Some(e.1))
  {
    var n := |keys| - 1;
    var before := Build(keys[..n], values[..n]);
    var last := if values[n].Some? then [(keys[n], values[n].value)] else [];
    assert Build(keys, values) == before + last;
    assert Keys(before + last) == Keys(before) + Keys(last);
    BuildKeys(keys[..n], values[..n]);
    if i < n {
      BuildHas(keys[..n], values[..n], i);
    } else {
      forall e | e in before ensures e.0 != keys[n] {
        var j :| 0 <= j < n && keys[..n][j] == e.0;
        assert keys[j] != keys[n];
      }
      assert forall j :: 0 <= j < |before| ==> before[j] in before;
      assert values[n].Some? ==> Keys(last)[0] == keys[n];
    }
  }

  lemma {:induction false} BuildKeys(keys: seq<string>, values: seq<Option<Value>>)
    requires |keys| == |values|
    ensures forall e :: e in Build(keys, values) ==> e.0 in keys
  {
    if keys != [] {
      var n := |keys| - 1;
      BuildKeys(keys[..n], values[..n]);
      assert forall key :: key in keys[..n] ==> key in keys;
    }
  }

  lemma FieldAt(entries: seq<(string, Value)>, key: string)
    ensures Field(Meaning(Entries(entries)), key)
          == if key in Keys(entries) then Some(Meaning(entries[At(entries, key)].1)) else None
  {
  }

  /** Where a known field is, among those built and the others. */
  lemma BuiltAt(built: seq<(string, Value)>, extra: seq<(string, Value)>, key: string)
    requires forall j :: 0 <= j < |extra| ==> extra[j].0 != key
    ensures key in Keys(built + extra) <==> key in Keys(built)
    ensures key in Keys(built + extra) ==> At(built + extra, key) < |built|
  {
    var all := built + extra;
    assert Keys(all) == Keys(built) + Keys(extra);
    assert forall j :: 0 <= j < |extra| ==> all[|built| + j] == extra[j] && Keys(extra)[j] == extra[j].0;
  }

  /** A field reads as the value it was built with. */
  lemma FieldOfBuild(keys: seq<string>, values: seq<Option<Value>>, extra: seq<(string, Value)>, i: nat)
    requires |keys| == |values| && Distinct(keys) && Disjoint(keys, extra) && i < |keys|
    ensures Field(Meaning(Entries(Build(keys, values) + extra)), keys[i]) == OptMeaning(values[i])
  {
    var built := Build(keys, values);
    BuildHas(keys, values, i);
    BuiltAt(built, extra, keys[i]);
    FieldAt(built + extra, keys[i]);
    hide Build, Distinct, Disjoint, Meaning, Field, At, Keys;
    if keys[i] in Keys(built + extra) {
      var k := At(built + extra, keys[i]);
      assert (built + extra)[k] == built[k] && built[k] in built;
    }
  }

  /** Fields built under the same keys mean the same when their objects do. */
  lemma SameFields(keys: seq<string>, x: seq<Option<Value>>, ex: seq<(string, Value)>, y: seq<Option<Value>>,
                   ey: seq<(string, Value)>)
    requires |keys| == |x| == |y| && Distinct(keys) && Disjoint(keys, ex) && Disjoint(keys, ey)
    requires Meaning(Entries(Build(keys, x) + ex)) == Meaning(Entries(Build(keys, y) + ey))
    ensures forall i :: 0 <= i < |keys| ==> OptMeaning(x[i]) == OptMeaning(y[i])
  {
    hide Meaning, Build, Distinct, Disjoint;
    forall i | 0 <= i < |keys| ensures OptMeaning(x[i]) == OptMeaning(y[i]) {
      FieldOfBuild(keys, x, ex, i);
      FieldOfBuild(keys, y, ey, i);
    }
  }

  /** A field that is not a known one reads as the server sent it. */
  lemma FieldOfExtra(keys: seq<string>, values: seq<Option<Value>>, extra: seq<(string, Value)>, key: string)
    requires |keys| == |values| && key !in keys
    ensures Field(Meaning(Entries(Build(keys, values) + extra)), key) == Field(Meaning(Entries(extra)), key)
  {
    BuildKeys(keys, values);
    FieldBeyond(Build(keys, values), extra, key);
  }

  lemma FieldBeyond(built: seq<(string, Value)>, extra: seq<(string, Value)>, key: string)
    requires forall e :: e in built ==> e.0 != key
    ensures Field(Meaning(Entries(built + extra)), key) == Field(Meaning(Entries(extra)), key)
  {
    hide Meaning, Field, At;
    var all := built + extra;
    FieldAt(all, key);
    FieldAt(extra, key);
    if key in Keys(extra) {
      LastAt(built, extra, key);
      assert all[|built| + At(extra, key)] == extra[At(extra, key)];
    } else {
      forall i | 0 <= i < |all| ensures Keys(all)[i] != key {
        assert i < |built| ==> all[i] in built;
        assert i >= |built| ==> all[i] == extra[i - |built|] && Keys(extra)[i - |built|] == all[i].0;
      }
    }
  }

  lemma {:induction false} LastAt(built: seq<(string, Value)>, extra: seq<(string, Value)>, key: string)
    requires key in Keys(extra)
    ensures key in Keys(built + extra) && At(built + extra, key) == |built| + At(extra, key)
  {
    var all := built + extra;
    var i := At(extra, key);
    assert all[|built| + i] == extra[i] && Keys(all)[|built| + i] == key;
    var j := At(all, key);
    assert j >= |built| + i;
    assert forall k :: 0 <= k < |extra| ==> all[|built| + k] == extra[k];
  }

  lemma SameObjects(x: Value, y: Value)
    requires x.Entries? && y.Entries?
    requires forall key :: Field(Meaning(x), key) == Field(Meaning(y), key)
    ensures Meaning(x) == Meaning(y)
  {
    var (m, n) := (Meaning(x).fields, Meaning(y).fields);
    forall key ensures (key in m <==> key in n) && (key in m ==> m[key] == n[key]) {
      assert Field(Meaning(x), key) == Field(Meaning(y), key);
    }
    assert m == n;
  }

  /** Objects built under the same keys mean the same exactly when their known fields do and the others do. */
  lemma WhenBuiltTheSame(keys: seq<string>, x: seq<Option<Value>>, ex: seq<(string, Value)>, y: seq<Option<Value>>,
                         ey: seq<(string, Value)>)
    requires |keys| == |x| == |y| && Distinct(keys) && Disjoint(keys, ex) && Disjoint(keys, ey)
    ensures Meaning(Entries(Build(keys, x) + ex)) == Meaning(Entries(Build(keys, y) + ey)) <==>
              (forall i :: 0 <= i < |keys| ==> OptMeaning(x[i]) == OptMeaning(y[i])) && SameExtra(ex, ey)
  {
    hide Meaning, Build, Distinct, OptMeaning;
    var (p, q) := (Entries(Build(keys, x) + ex), Entries(Build(keys, y) + ey));
    if Meaning(p) == Meaning(q) {
      SameFields(keys, x, ex, y, ey);
      forall key ensures Field(Meaning(Entries(ex)), key) == Field(Meaning(Entries(ey)), key) {
        if key in keys {
          NotExtra(keys, ex, key);
          NotExtra(keys, ey, key);
        } else {
          FieldOfExtra(keys, x, ex, key);
          FieldOfExtra(keys, y, ey, key);
        }
      }
      SameObjects(Entries(ex), Entries(ey));
    } else if (forall i :: 0 <= i < |keys| ==> OptMeaning(x[i]) == OptMeaning(y[i])) && SameExtra(ex, ey) {
      forall key ensures Field(Meaning(p), key) == Field(Meaning(q), key) {
        if key in keys {
          var i :| 0 <= i < |keys| && keys[i] == key;
          FieldOfBuild(keys, x, ex, i);
          FieldOfBuild(keys, y, ey, i);
        } else {
          FieldOfExtra(keys, x, ex, key);
          FieldOfExtra(keys, y, ey, key);
        }
      }
      SameObjects(p, q);
    }
  }

  lemma NotExtra(keys: seq<string>, extra: seq<(string, Value)>, key: string)
    requires Disjoint(keys, extra) && key in keys
    ensures Field(Meaning(Entries(extra)), key) == None
  {
    FieldAt(extra, key);
    var i :| 0 <= i < |keys| && keys[i] == key;
    assert forall j :: 0 <= j < |extra| ==> Keys(extra)[j] != keys[i];
  }

  lemma KeysDiffer()
    ensures Distinct(TOOL_KEYS) && Distinct(RESOURCE_KEYS) && Distinct(TEMPLATE_KEYS)
    ensures Distinct(ARGUMENT_KEYS) && Distinct(PROMPT_KEYS) && Distinct(SNAPSHOT_KEYS)
  {
  }

  /** As JSON read from a server is: no object repeats a key, and the fields an item has besides the
      known ones are not those again. */
  predicate Proper(s: Snapshot) {
    && WellFormed(Content(s))
    && (forall t :: t in s.tools ==> Disjoint(TOOL_KEYS, t.extra))
    && (forall r :: r in s.resources ==> Disjoint(RESOURCE_KEYS, r.extra))
    && (forall t :: t in s.templates ==> Disjoint(TEMPLATE_KEYS, t.extra))
    && (forall p :: p in s.prompts ==> Disjoint(PROMPT_KEYS, p.extra))
  }

  /** The fields besides the known ones mean the same. */
  predicate SameExtra(x: seq<(string, Value)>, y: seq<(string, Value)>) {
    Meaning(Entries(x)) == Meaning(Entries(y))
  }

  predicate SameTool(x: ToolInfo, y: ToolInfo) {
    && x.name == y.name && x.title == y.title && x.description == y.description
    && Meaning(x.inputSchema) == Meaning(y.inputSchema) && OptMeaning(x.outputSchema) == OptMeaning(y.outputSchema)
    && OptMeaning(x.annotations) == OptMeaning(y.annotations) && SameExtra(x.extra, y.extra)
  }

  predicate SameResource(x: ResourceInfo, y: ResourceInfo) {
    && x.uri == y.uri && x.name == y.name && x.title == y.title && x.description == y.description
    && x.mimeType == y.mimeType && x.size == y.size && SameExtra(x.extra, y.extra)
  }

  predicate SameTemplate(x: TemplateInfo, y: TemplateInfo) {
    && x.uriTemplate == y.uriTemplate && x.name == y.name && x.title == y.title
    && x.description == y.description && x.mimeType == y.mimeType && SameExtra(x.extra, y.extra)
  }

  predicate SamePrompt(x: PromptInfo, y: PromptInfo) {
    && x.name == y.name && x.title == y.title && x.description == y.description && x.arguments == y.arguments
    && SameExtra(x.extra, y.extra)
  }

  predicate SameContent(a: Snapshot, b: Snapshot) {
    && a.protocolVersion == b.protocolVersion && Meaning(a.serverInfo) == Meaning(b.serverInfo)
    && Meaning(a.capabilities) == Meaning(b.capabilities) && a.instructions == b.instructions
    && |a.tools| == |b.tools| && (forall i :: 0 <= i < |a.tools| ==> SameTool(a.tools[i], b.tools[i]))
    && |a.resources| == |b.resources|
    && (forall i :: 0 <= i < |a.resources| ==> SameResource(a.resources[i], b.resources[i]))
    && |a.templates| == |b.templates|
    && (forall i :: 0 <= i < |a.templates| ==> SameTemplate(a.templates[i], b.templates[i]))
    && |a.prompts| == |b.prompts| && (forall i :: 0 <= i < |a.prompts| ==> SamePrompt(a.prompts[i], b.prompts[i]))
  }

  lemma ToolsMean(x: ToolInfo, y: ToolInfo)
    requires Disjoint(TOOL_KEYS, x.extra) && Disjoint(TOOL_KEYS, y.extra)
    ensures Meaning(ToolContent(x)) == Meaning(ToolContent(y)) <==> SameTool(x, y)
  {
    KeysDiffer();
    var (fx, fy) := (ToolFields(x), ToolFields(y));
    WhenBuiltTheSame(TOOL_KEYS, fx, x.extra, fy, y.extra);
    hide SameExtra, Disjoint, Build;
    assert |TOOL_KEYS| == 6;
    assert OptMeaning(fx[0]) == OptMeaning(fy[0]) <==> x.name == y.name;
    assert OptMeaning(fx[1]) == OptMeaning(fy[1]) <==> x.title == y.title;
    assert OptMeaning(fx[2]) == OptMeaning(fy[2]) <==> x.description == y.description;
    assert OptMeaning(fx[3]) == OptMeaning(fy[3]) <==> Meaning(x.inputSchema) == Meaning(y.inputSchema);
    assert fx[4] == x.outputSchema && fy[4] == y.outputSchema && fx[5] == x.annotations && fy[5] == y.annotations;
  }

  lemma ResourcesMean(x: ResourceInfo, y: ResourceInfo)
    requires Disjoint(RESOURCE_KEYS, x.extra) && Disjoint(RESOURCE_KEYS, y.extra)
    ensures Meaning(ResourceContent(x)) == Meaning(ResourceContent(y)) <==> SameResource(x, y)
  {
    KeysDiffer();
    var (fx, fy) := (ResourceFields(x), ResourceFields(y));
    WhenBuiltTheSame(RESOURCE_KEYS, fx, x.extra, fy, y.extra);
    hide SameExtra, Disjoint, Build;
    assert |RESOURCE_KEYS| == 6;
    assert OptMeaning(fx[0]) == OptMeaning(fy[0]) <==> x.uri == y.uri;
    assert OptMeaning(fx[1]) == OptMeaning(fy[1]) <==> x.name == y.name;
    assert OptMeaning(fx[2]) == OptMeaning(fy[2]) <==> x.title == y.title;
    assert OptMeaning(fx[3]) == OptMeaning(fy[3]) <==> x.description == y.description;
    assert OptMeaning(fx[4]) == OptMeaning(fy[4]) <==> x.mimeType == y.mimeType;
    assert OptMeaning(fx[5]) == OptMeaning(fy[5]) <==> x.size == y.size;
  }

  lemma TemplatesMean(x: TemplateInfo, y: TemplateInfo)
    requires Disjoint(TEMPLATE_KEYS, x.extra) && Disjoint(TEMPLATE_KEYS, y.extra)
    ensures Meaning(TemplateContent(x)) == Meaning(TemplateContent(y)) <==> SameTemplate(x, y)
  {
    KeysDiffer();
    var (fx, fy) := (TemplateFields(x), TemplateFields(y));
    WhenBuiltTheSame(TEMPLATE_KEYS, fx, x.extra, fy, y.extra);
    hide SameExtra, Disjoint, Build;
    assert |TEMPLATE_KEYS| == 5;
    assert OptMeaning(fx[0]) == OptMeaning(fy[0]) <==> x.uriTemplate == y.uriTemplate;
    assert OptMeaning(fx[1]) == OptMeaning(fy[1]) <==> x.name == y.name;
    assert OptMeaning(fx[2]) == OptMeaning(fy[2]) <==> x.title == y.title;
    assert OptMeaning(fx[3]) == OptMeaning(fy[3]) <==> x.description == y.description;
    assert OptMeaning(fx[4]) == OptMeaning(fy[4]) <==> x.mimeType == y.mimeType;
  }

  lemma ArgumentsMean(x: Argument, y: Argument)
    requires Meaning(ArgumentContent(x)) == Meaning(ArgumentContent(y))
    ensures x == y
  {
    KeysDiffer();
    var (fx, fy) := (ArgumentFields(x), ArgumentFields(y));
    SameFields(ARGUMENT_KEYS, fx, [], fy, []);
    assert OptMeaning(fx[0]) == OptMeaning(fy[0]) && OptMeaning(fx[1]) == OptMeaning(fy[1]);
    assert OptMeaning(fx[2]) == OptMeaning(fy[2]) && OptMeaning(fx[3]) == OptMeaning(fy[3]);
  }

  lemma ListsMean<T>(x: seq<T>, y: seq<T>, f: T -> Value)
    requires Meaning(List(Map(x, f))) == Meaning(List(Map(y, f)))
    ensures |x| == |y| && forall i :: 0 <= i < |x| ==> Meaning(f(x[i])) == Meaning(f(y[i]))
  {
    var (mx, my) := (Meaning(List(Map(x, f))).items, Meaning(List(Map(y, f))).items);
    assert |mx| == |x| && |my| == |y|;
    forall i | 0 <= i < |x| ensures Meaning(f(x[i])) == Meaning(f(y[i])) {
      assert mx[i] == Meaning(f(x[i])) && my[i] == Meaning(f(y[i]));
    }
  }

  lemma SameArguments(x: seq<Argument>, y: seq<Argument>)
    ensures Meaning(List(Map(x, ArgumentContent))) == Meaning(List(Map(y, ArgumentContent))) <==> x == y
  {
    if Meaning(List(Map(x, ArgumentContent))) == Meaning(List(Map(y, ArgumentContent))) {
      ListsMean(x, y, ArgumentContent);
      forall i | 0 <= i < |x| ensures x[i] == y[i] {
        ArgumentsMean(x[i], y[i]);
      }
    }
  }

  lemma PromptsMean(x: PromptInfo, y: PromptInfo)
    requires Disjoint(PROMPT_KEYS, x.extra) && Disjoint(PROMPT_KEYS, y.extra)
    ensures Meaning(PromptContent(x)) == Meaning(PromptContent(y)) <==> SamePrompt(x, y)
  {
    KeysDiffer();
    var (fx, fy) := (PromptFields(x), PromptFields(y));
    WhenBuiltTheSame(PROMPT_KEYS, fx, x.extra, fy, y.extra);
    SameArguments(x.arguments, y.arguments);
    hide SameExtra, Disjoint, Build;
    assert |PROMPT_KEYS| == 4;
    assert OptMeaning(fx[0]) == OptMeaning(fy[0]) <==> x.name == y.name;
    assert OptMeaning(fx[1]) == OptMeaning(fy[1]) <==> x.title == y.title;
    assert OptMeaning(fx[2]) == OptMeaning(fy[2]) <==> x.description == y.description;
    assert OptMeaning(fx[3]) == OptMeaning(fy[3]) <==> x.arguments == y.arguments;
  }

  /** The contents of two snapshots mean the same exactly when everything in them does, item by item,
      whatever the order of keys; when they were taken, and what could not be read, is not in them. */
  lemma ContentMeans(a: Snapshot, b: Snapshot)
    requires Proper(a) && Proper(b)
    ensures Meaning(Content(a)) == Meaning(Content(b)) <==> SameContent(a, b)
  {
    KeysDiffer();
    var (fa, fb) := (SnapshotFields(a), SnapshotFields(b));
    WhenBuiltTheSame(SNAPSHOT_KEYS, fa, [], fb, []);
    ItemsMean(a, b);
    SnapshotFieldsMean(a, b);
    assert |SNAPSHOT_KEYS| == 8 && |fa| == 8 == |fb|;
    assert Content(a) == Entries(Build(SNAPSHOT_KEYS, fa) + []) && Content(b) == Entries(Build(SNAPSHOT_KEYS, fb) + []);
    AllEight(fa, fb);
    hide SnapshotFields, Content, Build, Meaning, OptMeaning, Map, SameTool, SameResource, SameTemplate, SamePrompt,
      Proper;
  }

  lemma AllEight(x: seq<Option<Value>>, y: seq<Option<Value>>)
    requires |x| == 8 == |y|
    ensures (forall i :: 0 <= i < 8 ==> OptMeaning(x[i]) == OptMeaning(y[i])) <==>
              && OptMeaning(x[0]) == OptMeaning(y[0]) && OptMeaning(x[1]) == OptMeaning(y[1])
              && OptMeaning(x[2]) == OptMeaning(y[2]) && OptMeaning(x[3]) == OptMeaning(y[3])
              && OptMeaning(x[4]) == OptMeaning(y[4]) && OptMeaning(x[5]) == OptMeaning(y[5])
              && OptMeaning(x[6]) == OptMeaning(y[6]) && OptMeaning(x[7]) == OptMeaning(y[7])
  {
    hide OptMeaning;
  }

  lemma SnapshotFieldsMean(a: Snapshot, b: Snapshot)
    ensures var (fa, fb) := (SnapshotFields(a), SnapshotFields(b));
            && |fa| == 8 == |fb|
            && (OptMeaning(fa[0]) == OptMeaning(fb[0]) <==> a.protocolVersion == b.protocolVersion)
            && (OptMeaning(fa[1]) == OptMeaning(fb[1]) <==> Meaning(a.serverInfo) == Meaning(b.serverInfo))
            && (OptMeaning(fa[2]) == OptMeaning(fb[2]) <==> Meaning(a.capabilities) == Meaning(b.capabilities))
            && (OptMeaning(fa[3]) == OptMeaning(fb[3]) <==> a.instructions == b.instructions)
            && (OptMeaning(fa[4]) == OptMeaning(fb[4]) <==>
                  Meaning(List(Map(a.tools, ToolContent))) == Meaning(List(Map(b.tools, ToolContent))))
            && (OptMeaning(fa[5]) == OptMeaning(fb[5]) <==>
                  Meaning(List(Map(a.resources, ResourceContent))) == Meaning(List(Map(b.resources, ResourceContent))))
            && (OptMeaning(fa[6]) == OptMeaning(fb[6]) <==>
                  Meaning(List(Map(a.templates, TemplateContent))) == Meaning(List(Map(b.templates, TemplateContent))))
            && (OptMeaning(fa[7]) == OptMeaning(fb[7]) <==>
                  Meaning(List(Map(a.prompts, PromptContent))) == Meaning(List(Map(b.prompts, PromptContent))))
  {
    hide Map;
  }

  lemma WhenListsMeanTheSame<T>(x: seq<T>, y: seq<T>, f: T -> Value)
    ensures Meaning(List(Map(x, f))) == Meaning(List(Map(y, f))) <==>
              |x| == |y| && forall i :: 0 <= i < |x| ==> Meaning(f(x[i])) == Meaning(f(y[i]))
  {
    if Meaning(List(Map(x, f))) == Meaning(List(Map(y, f))) {
      ListsMean(x, y, f);
    }
    if |x| == |y| && forall i :: 0 <= i < |x| ==> Meaning(f(x[i])) == Meaning(f(y[i])) {
      SameListsMean(x, y, f);
    }
  }

  lemma SameListsMean<T>(x: seq<T>, y: seq<T>, f: T -> Value)
    requires |x| == |y| && forall i :: 0 <= i < |x| ==> Meaning(f(x[i])) == Meaning(f(y[i]))
    ensures Meaning(List(Map(x, f))) == Meaning(List(Map(y, f)))
  {
    var (mx, my) := (Meaning(List(Map(x, f))).items, Meaning(List(Map(y, f))).items);
    assert |mx| == |x| == |my|;
    forall i | 0 <= i < |x| ensures mx[i] == my[i] {
      assert mx[i] == Meaning(f(x[i])) && my[i] == Meaning(f(y[i]));
    }
    assert mx == my;
  }

  lemma ItemsMean(a: Snapshot, b: Snapshot)
    requires Proper(a) && Proper(b)
    ensures Meaning(List(Map(a.tools, ToolContent))) == Meaning(List(Map(b.tools, ToolContent))) <==>
              |a.tools| == |b.tools| && forall i :: 0 <= i < |a.tools| ==> SameTool(a.tools[i], b.tools[i])
    ensures Meaning(List(Map(a.resources, ResourceContent))) == Meaning(List(Map(b.resources, ResourceContent))) <==>
              |a.resources| == |b.resources|
              && forall i :: 0 <= i < |a.resources| ==> SameResource(a.resources[i], b.resources[i])
    ensures Meaning(List(Map(a.templates, TemplateContent))) == Meaning(List(Map(b.templates, TemplateContent))) <==>
              |a.templates| == |b.templates|
              && forall i :: 0 <= i < |a.templates| ==> SameTemplate(a.templates[i], b.templates[i])
    ensures Meaning(List(Map(a.prompts, PromptContent))) == Meaning(List(Map(b.prompts, PromptContent))) <==>
              |a.prompts| == |b.prompts| && forall i :: 0 <= i < |a.prompts| ==> SamePrompt(a.prompts[i], b.prompts[i])
  {
    hide Meaning, ToolContent, ResourceContent, TemplateContent, PromptContent, Content, WellFormed, Disjoint, Map;
    hide SameTool, SameResource, SameTemplate, SamePrompt;
    WhenListsMeanTheSame(a.tools, b.tools, ToolContent);
    WhenListsMeanTheSame(a.resources, b.resources, ResourceContent);
    WhenListsMeanTheSame(a.templates, b.templates, TemplateContent);
    WhenListsMeanTheSame(a.prompts, b.prompts, PromptContent);
    forall x, y | x in a.tools && y in b.tools
      ensures Meaning(ToolContent(x)) == Meaning(ToolContent(y)) <==> SameTool(x, y)
    {
      ToolsMean(x, y);
    }
    forall x, y | x in a.resources && y in b.resources
      ensures Meaning(ResourceContent(x)) == Meaning(ResourceContent(y)) <==> SameResource(x, y)
    {
      ResourcesMean(x, y);
    }
    forall x, y | x in a.templates && y in b.templates
      ensures Meaning(TemplateContent(x)) == Meaning(TemplateContent(y)) <==> SameTemplate(x, y)
    {
      TemplatesMean(x, y);
    }
    forall x, y | x in a.prompts && y in b.prompts
      ensures Meaning(PromptContent(x)) == Meaning(PromptContent(y)) <==> SamePrompt(x, y)
    {
      PromptsMean(x, y);
    }
  }
}
