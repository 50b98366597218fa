/** What a report without a breaking change promises: when it is given, item by item, and that calls
    and results that were fine stay so. */
module DiffMeaning {
  import opened Json
  import opened Canonical
  import opened Changes
  import opened SchemaDiff
  import opened SchemaMeaning
  import opened SchemaSoundness
  import opened Snapshots
  import opened SnapshotDiff
  import opened DiffReport

  lemma QuietParts(x: seq<Change>, y: seq<Change>)
    ensures NoBreaking(x + y) <==> NoBreaking(x) && NoBreaking(y)
  {
    if NoBreaking(x + y) {
      NoBreakingParts(x, y);
    }
  }

  lemma QuietWhen(condition: bool, c: Change)
    ensures NoBreaking(When(condition, c)) <==> !condition || c.severity != Breaking
  {
    assert c in [c];
  }

  /** An old item breaks nothing when it is still there and its new self breaks nothing. */
  ghost predicate Stays<T>(x: T, news: seq<T>, name: T -> string, pair: (T, T) -> seq<Change>) {
    Find(news, name, name(x)).Some? && NoBreaking(pair(x, Find(news, name, name(x)).value))
  }

  lemma OldItemStays<T>(x: T, news: seq<T>, name: T -> string, pair: (T, T) -> seq<Change>, kind: ItemKind)
    ensures NoBreaking(OldChange(x, news, name, pair, kind)) <==> Stays(x, news, name, pair)
  {
    if Find(news, name, name(x)).None? {
      assert Of(Breaking, kind, name(x), []) in OldChange(x, news, name, pair, kind);
    }
  }

  lemma {:induction false} OldItemsStay<T>(olds: seq<T>, news: seq<T>, name: T -> string, pair: (T, T) -> seq<Change>,
                                           kind: ItemKind)
    ensures NoBreaking(OldChanges(olds, news, name, pair, kind)) <==>
              forall i :: 0 <= i < |olds| ==> Stays(olds[i], news, name, pair)
  {
    hide OldChange, Stays;
    if olds != [] {
      var n := |olds| - 1;
      OldItemsStay(olds[..n], news, name, pair, kind);
      OldItemStays(olds[n], news, name, pair, kind);
      QuietParts(OldChanges(olds[..n], news, name, pair, kind), OldChange(olds[n], news, name, pair, kind));
      assert forall i :: 0 <= i < n ==> olds[..n][i] == olds[i];
    }
  }

  lemma {:induction false} NewItemsAreQuiet<T>(news: seq<T>, olds: seq<T>, name: T -> string, kind: ItemKind)
    ensures NoBreaking(NewChanges(news, olds, name, kind))
  {
    if news != [] {
      var n := |news| - 1;
      NewItemsAreQuiet(news[..n], olds, name, kind);
      QuietWhen(Find(olds, name, name(news[n])).None?, Of(Compatible, kind, name(news[n]), []));
      QuietParts(NewChanges(news[..n], olds, name, kind),
                 When(Find(olds, name, name(news[n])).None?, Of(Compatible, kind, name(news[n]), [])));
    }
  }

  /** A list breaks nothing exactly when every old item stays; new items never break. */
  lemma ListIsQuiet<T>(olds: seq<T>, news: seq<T>, name: T -> string, pair: (T, T) -> seq<Change>, kind: ItemKind)
    ensures NoBreaking(ListChanges(olds, news, name, pair, kind)) <==>
              forall i :: 0 <= i < |olds| ==> Stays(olds[i], news, name, pair)
  {
    OldItemsStay(olds, news, name, pair, kind);
    NewItemsAreQuiet(news, olds, name, kind);
    QuietParts(OldChanges(olds, news, name, pair, kind), NewChanges(news, olds, name, kind));
  }

  // --- Resources, templates and capabilities ---

  /** Resources break nothing exactly when each is still there under its URI with its MIME type. */
  lemma ResourcesAreQuiet(a: Snapshot, b: Snapshot)
    ensures NoBreaking(AllResourceChanges(a, b)) <==>
              forall i :: 0 <= i < |a.resources| ==>
                var now := Find(b.resources, ResourceUri, a.resources[i].uri);
                now.Some? && now.value.mimeType == a.resources[i].mimeType
  {
    ListIsQuiet(a.resources, b.resources, ResourceUri, ResourceChanges, Resource);
    forall i | 0 <= i < |a.resources|
      ensures Stays(a.resources[i], b.resources, ResourceUri, ResourceChanges) <==>
                var now := Find(b.resources, ResourceUri, a.resources[i].uri);
                now.Some? && now.value.mimeType == a.resources[i].mimeType
    {
      var x := a.resources[i];
      var now := Find(b.resources, ResourceUri, ResourceUri(x));
      if now.Some? {
        var y := now.value;
        QuietWhen(x.mimeType != y.mimeType, Of(Breaking, Resource, x.uri, [Key("mimeType")]));
        QuietWhen(x.name != y.name || x.title != y.title || x.description != y.description,
                  Of(Cosmetic, Resource, x.uri, [Key("description")]));
        QuietParts(When(x.mimeType != y.mimeType, Of(Breaking, Resource, x.uri, [Key("mimeType")])),
                   When(x.name != y.name || x.title != y.title || x.description != y.description,
                        Of(Cosmetic, Resource, x.uri, [Key("description")])));
      }
    }
    hide Stays, ListChanges;
  }

  /** Templates break nothing exactly when each is still there with its MIME type. */
  lemma TemplatesAreQuiet(a: Snapshot, b: Snapshot)
    ensures NoBreaking(AllTemplateChanges(a, b)) <==>
              forall i :: 0 <= i < |a.templates| ==>
                var now := Find(b.templates, TemplateUri, a.templates[i].uriTemplate);
                now.Some? && now.value.mimeType == a.templates[i].mimeType
  {
    ListIsQuiet(a.templates, b.templates, TemplateUri, TemplateChanges, ResourceTemplate);
    forall i | 0 <= i < |a.templates|
      ensures Stays(a.templates[i], b.templates, TemplateUri, TemplateChanges) <==>
                var now := Find(b.templates, TemplateUri, a.templates[i].uriTemplate);
                now.Some? && now.value.mimeType == a.templates[i].mimeType
    {
      var x := a.templates[i];
      var now := Find(b.templates, TemplateUri, TemplateUri(x));
      if now.Some? {
        var y := now.value;
        var moved := When(x.mimeType != y.mimeType, Of(Breaking, ResourceTemplate, x.uriTemplate, [Key("mimeType")]));
        QuietWhen(x.mimeType != y.mimeType, Of(Breaking, ResourceTemplate, x.uriTemplate, [Key("mimeType")]));
        var differs := x.name != y.name || x.title != y.title || x.description != y.description;
        QuietWhen(differs, Of(Cosmetic, ResourceTemplate, x.uriTemplate, [Key("description")]));
        QuietParts(moved, When(differs, Of(Cosmetic, ResourceTemplate, x.uriTemplate, [Key("description")])));
      }
    }
    hide Stays, ListChanges;
  }

  lemma {:induction false} CapsAreQuiet(caps: seq<string>, others: seq<string>)
    ensures NoBreaking(CapChanges(caps, others, Compatible))
    ensures NoBreaking(CapChanges(caps, others, Breaking)) <==> forall cap :: cap in caps ==> cap in others
  {
    if caps != [] {
      var n := |caps| - 1;
      var change := (s: Severity) => Of(s, Server, "server", [Key("capabilities"), Key(caps[n])]);
      CapsAreQuiet(caps[..n], others);
      QuietWhen(caps[n] !in others, change(Compatible));
      QuietWhen(caps[n] !in others, change(Breaking));
      QuietParts(CapChanges(caps[..n], others, Compatible), When(caps[n] !in others, change(Compatible)));
      QuietParts(CapChanges(caps[..n], others, Breaking), When(caps[n] !in others, change(Breaking)));
      assert forall cap :: cap in caps <==> cap in caps[..n] || cap == caps[n];
    }
  }

  /** The server itself breaks nothing exactly when it keeps every capability. */
  lemma ServerIsQuiet(a: Snapshot, b: Snapshot)
    ensures NoBreaking(ServerChanges(a, b)) <==>
              forall cap :: cap in Caps(a.capabilities) ==> cap in Caps(b.capabilities)
  {
    CapsAreQuiet(Caps(a.capabilities), Caps(b.capabilities));
    CapsAreQuiet(Caps(b.capabilities), Caps(a.capabilities));
    hide CapChanges, Caps, Meaning;
    var x := When(a.protocolVersion != b.protocolVersion, Of(Compatible, Server, "server", [Key("protocolVersion")]));
    var y := When(Meaning(a.serverInfo) != Meaning(b.serverInfo), Of(Cosmetic, Server, "server", [Key("serverInfo")]));
    var z := When(a.instructions != b.instructions, Of(Cosmetic, Server, "server", [Key("instructions")]));
    var gone := CapChanges(Caps(a.capabilities), Caps(b.capabilities), Breaking);
    QuietParts(x, y);
    QuietParts(x + y, z);
    QuietParts(x + y + z, gone);
    QuietParts(x + y + z + gone, CapChanges(Caps(b.capabilities), Caps(a.capabilities), Compatible));
  }

  // --- Prompts ---

  predicate MustGive(a: Argument) {
    a.required == Some(true)
  }

  /** Whether an argument of the old prompt may be called for now. */
  predicate WasAsked(olds: seq<Argument>, now: Argument) {
    Find(olds, ArgumentName, now.name).Some? && MustGive(Find(olds, ArgumentName, now.name).value)
  }

  lemma ArgumentPairIsQuiet(prompt: string, x: Argument, y: Argument)
    ensures NoBreaking(ArgumentPair(prompt, x, y)) <==> (MustGive(y) ==> MustGive(x))
  {
    var c := ArgumentAt(prompt, Breaking, x.name);
    if !MustGive(x) && MustGive(y) {
      assert ArgumentPair(prompt, x, y)[0] == c;
      assert c in ArgumentPair(prompt, x, y);
    }
  }

  lemma OldArgumentIsQuiet(prompt: string, x: Argument, news: seq<Argument>)
    ensures NoBreaking(OldArgument(prompt, x, news)) <==>
              var now := Find(news, ArgumentName, x.name); now.Some? && MustGive(now.value) ==> MustGive(x)
  {
    hide ArgumentPair;
    var now := Find(news, ArgumentName, x.name);
    if now.Some? {
      ArgumentPairIsQuiet(prompt, x, now.value);
    }
  }

  lemma {:induction false} OldArgumentsAreQuiet(prompt: string, olds: seq<Argument>, news: seq<Argument>)
    ensures NoBreaking(OldArguments(prompt, olds, news)) <==>
              forall i :: 0 <= i < |olds| ==>
                var now := Find(news, ArgumentName, olds[i].name);
                now.Some? && MustGive(now.value) ==> MustGive(olds[i])
  {
    hide ArgumentPair, Find, NoBreaking;
    if olds == [] {
      assert NoBreaking([]) by {
        QuietWhen(false, ArgumentAt(prompt, Breaking, ""));
      }
    } else {
      var n := |olds| - 1;
      OldArgumentsAreQuiet(prompt, olds[..n], news);
      assert forall i :: 0 <= i < n ==> olds[..n][i] == olds[i];
      var now := Find(news, ArgumentName, olds[n].name);
      OldArgumentIsQuiet(prompt, olds[n], news);
      QuietParts(OldArguments(prompt, olds[..n], news), OldArgument(prompt, olds[n], news));
    }
  }

  lemma ArgumentSeverity(prompt: string, severity: Severity, argument: string)
    ensures ArgumentAt(prompt, severity, argument).severity == severity
  {
  }

  lemma {:induction false} NewArgumentsAreQuiet(prompt: string, news: seq<Argument>, olds: seq<Argument>)
    ensures NoBreaking(NewArguments(prompt, news, olds)) <==>
              forall i :: 0 <= i < |news| && MustGive(news[i]) ==> Find(olds, ArgumentName, news[i].name).Some?
  {
    hide Find, NoBreaking, ArgumentAt;
    if news == [] {
      assert NoBreaking([]) by {
        QuietWhen(false, ArgumentAt(prompt, Breaking, ""));
      }
    } else {
      var n := |news| - 1;
      NewArgumentsAreQuiet(prompt, news[..n], olds);
      assert forall i :: 0 <= i < n ==> news[..n][i] == news[i];
      var severity := if MustGive(news[n]) then Breaking else Compatible;
      var change := ArgumentAt(prompt, severity, news[n].name);
      assert change.severity == severity by {
        ArgumentSeverity(prompt, severity, news[n].name);
      }
      QuietWhen(Find(olds, ArgumentName, news[n].name).None?, change);
      QuietParts(NewArguments(prompt, news[..n], olds), When(Find(olds, ArgumentName, news[n].name).None?, change));
    }
  }

  /** A prompt breaks nothing exactly when every argument it must be given now is one it had to be
      given before. */
  lemma PromptIsQuiet(x: PromptInfo, y: PromptInfo)
    requires DiffReport.UniqueNames(x.arguments, ArgumentName) && DiffReport.UniqueNames(y.arguments, ArgumentName)
    ensures NoBreaking(PromptChanges(x, y)) <==>
              forall i :: 0 <= i < |y.arguments| && MustGive(y.arguments[i]) ==> WasAsked(x.arguments, y.arguments[i])
  {
    OldArgumentsAreQuiet(x.name, x.arguments, y.arguments);
    NewArgumentsAreQuiet(x.name, y.arguments, x.arguments);
    var renamed := When(x.description != y.description || x.title != y.title,
                        Of(Cosmetic, Prompt, x.name, [Key("description")]));
    QuietWhen(x.description != y.description || x.title != y.title, Of(Cosmetic, Prompt, x.name, [Key("description")]));
    QuietParts(renamed, OldArguments(x.name, x.arguments, y.arguments));
    QuietParts(renamed + OldArguments(x.name, x.arguments, y.arguments),
               NewArguments(x.name, y.arguments, x.arguments));
    hide OldArguments, NewArguments, When;
    forall i | 0 <= i < |y.arguments|
      ensures Find(y.arguments, ArgumentName, y.arguments[i].name) == Some(y.arguments[i])
    {
      FindUnique(y.arguments, ArgumentName, i);
      assert ArgumentName(y.arguments[i]) == y.arguments[i].name;
    }
    forall i | 0 <= i < |x.arguments|
      ensures Find(x.arguments, ArgumentName, x.arguments[i].name) == Some(x.arguments[i])
    {
      FindUnique(x.arguments, ArgumentName, i);
      assert ArgumentName(x.arguments[i]) == x.arguments[i].name;
    }
    hide DiffReport.UniqueNames;
    ArgumentsMatch(x.arguments, y.arguments);
  }

  /** The two conditions, on old and on new arguments, say one thing. */
  lemma ArgumentsMatch(olds: seq<Argument>, news: seq<Argument>)
    requires forall i :: 0 <= i < |news| ==> Find(news, ArgumentName, news[i].name) == Some(news[i])
    requires forall i :: 0 <= i < |olds| ==> Find(olds, ArgumentName, olds[i].name) == Some(olds[i])
    ensures (forall i :: 0 <= i < |news| && MustGive(news[i]) ==> WasAsked(olds, news[i])) <==>
              && (forall i :: 0 <= i < |news| && MustGive(news[i]) ==> Find(olds, ArgumentName, news[i].name).Some?)
              && (forall i :: 0 <= i < |olds| ==>
                    var now := Find(news, ArgumentName, olds[i].name);
                    now.Some? && MustGive(now.value) ==> MustGive(olds[i]))
  {
    hide Find;
    if forall i :: 0 <= i < |news| && MustGive(news[i]) ==> WasAsked(olds, news[i]) {
      forall j | 0 <= j < |olds|
        ensures var now := Find(news, ArgumentName, olds[j].name);
                now.Some? && MustGive(now.value) ==> MustGive(olds[j])
      {
        if Find(news, ArgumentName, olds[j].name).Some? {
          var i := FoundAt(news, olds[j].name);
          assert news[i].name == olds[j].name;
        }
      }
    } else {
      var i :| 0 <= i < |news| && MustGive(news[i]) && !WasAsked(olds, news[i]);
      if Find(olds, ArgumentName, news[i].name).Some? {
        var j := FoundAt(olds, news[i].name);
        assert Find(news, ArgumentName, olds[j].name) == Some(news[i]);
      }
    }
  }

  lemma FoundAt(items: seq<Argument>, wanted: string) returns (i: nat)
    requires Find(items, ArgumentName, wanted).Some?
    ensures i < |items| && items[i].name == wanted && Find(items, ArgumentName, wanted) == Some(items[i])
  {
    i :| 0 <= i < |items| && items[i] == Find(items, ArgumentName, wanted).value && ArgumentName(items[i]) == wanted;
  }

  // --- Tools ---

  lemma OutputIsQuiet(x: ToolInfo, y: ToolInfo)
    ensures NoBreaking(OutputChanges(x, y)) <==>
              (x.outputSchema.Some? ==>
                 && y.outputSchema.Some?
                 && NoBreaking(CompareChanges(Meaning(x.outputSchema.value), Meaning(y.outputSchema.value), Output,
                                              Tool, x.name, [Key("outputSchema")])))
  {
    hide CompareChanges, Meaning;
    if x.outputSchema.Some? && y.outputSchema.None? {
      assert Of(Breaking, Tool, x.name, [Key("outputSchema")]) in OutputChanges(x, y);
    }
  }

  /** A tool breaks nothing exactly when neither schema does, and an output schema is not withdrawn. */
  lemma ToolIsQuiet(x: ToolInfo, y: ToolInfo)
    ensures NoBreaking(ToolChanges(x, y)) <==>
              && NoBreaking(CompareChanges(Meaning(x.inputSchema), Meaning(y.inputSchema), Input, Tool, x.name,
                                           [Key("inputSchema")]))
              && NoBreaking(OutputChanges(x, y))
  {
    var p := When(x.description != y.description || x.title != y.title,
                  Of(Cosmetic, Tool, x.name, [Key("description")]));
    var q := When(OptMeaning(x.annotations) != OptMeaning(y.annotations),
                  Of(Cosmetic, Tool, x.name, [Key("annotations")]));
    var input := CompareChanges(Meaning(x.inputSchema), Meaning(y.inputSchema), Input, Tool, x.name,
                                [Key("inputSchema")]);
    hide CompareChanges, Meaning, OptMeaning, OutputChanges;
    QuietParts(p, q);
    QuietParts(p + q, input);
    QuietParts(p + q + input, OutputChanges(x, y));
  }

  /** Schemas in the fragment on which the classification is sound. */
  predicate Comparable(a: Value, b: Value) {
    Covered(Meaning(a), 0) && Covered(Meaning(b), 0) && Matched(Meaning(a), Meaning(b))
  }

  /** The report on `b` after `a` has nothing breaking. Snapshots of equal digests do not collide, are
      those of JSON that repeats no key, and items of one name in them agree: or else the report is not
      what every comparison gives. */
  ghost predicate Quiet(hash: Value -> string, a: Snapshot, b: Snapshot) {
    && Reported(hash, Some(a), b).breaking == 0
    && (Digest(hash, a) == Digest(hash, b) ==>
          !Collide(hash, a, b) && Proper(a) && Proper(b) && RepeatsAgree(b, Skipped(a, b)))
  }

  lemma QuietMeans(hash: Value -> string, a: Snapshot, b: Snapshot)
    requires Quiet(hash, a, b)
    ensures NoBreaking(AllChanges(a, b))
  {
    hide AllChanges, Digest, Proper, RepeatsAgree, Skipped, Collide, FromChanges;
    if Digest(hash, a) == Digest(hash, b) {
      WhatEqualDigestsFind(hash, a, b);
    } else {
      ReportCounts(AllChanges(a, b), Skipped(a, b));
    }
  }

  /** When a report has nothing breaking and tools were compared: a tool called with arguments its old
      schema accepted, which use no property the new schema newly declares, is still there and accepts
      them. */
  lemma CallsStayValid(hash: Value -> string, env: Env, a: Snapshot, b: Snapshot, i: nat, arguments: Json)
    requires Quiet(hash, a, b) && !Failed(a, b, TOOLS) && i < |a.tools|
    ensures Find(b.tools, ToolName, a.tools[i].name).Some?
    ensures var (x, y) := (a.tools[i], Find(b.tools, ToolName, a.tools[i].name).value);
            Comparable(x.inputSchema, y.inputSchema)
            && Accepts(env, Avoiding(Meaning(y.inputSchema)), Meaning(x.inputSchema), arguments) ==>
              Accepts(env, AsWritten, Meaning(y.inputSchema), arguments)
  {
    hide CompareChanges, Accepts, Covered, Matched, Meaning, Quiet;
    QuietMeans(hash, a, b);
    ToolStays(a, b, i);
    var (x, y) := (a.tools[i], Find(b.tools, ToolName, a.tools[i].name).value);
    ToolIsQuiet(x, y);
    var (was, now) := (Meaning(x.inputSchema), Meaning(y.inputSchema));
    if Comparable(x.inputSchema, y.inputSchema) && Accepts(env, Avoiding(now), was, arguments) {
      InputIsSound(env, was, now, Tool, x.name, [Key("inputSchema")], arguments);
    }
  }

  /** And what it answers by its new output schema is read by its old one, by a client that ignores
      properties it does not know. */
  lemma ResultsStayReadable(hash: Value -> string, env: Env, a: Snapshot, b: Snapshot, i: nat, result: Json)
    requires Quiet(hash, a, b) && !Failed(a, b, TOOLS)
    requires i < |a.tools| && a.tools[i].outputSchema.Some?
    ensures Find(b.tools, ToolName, a.tools[i].name).Some?
    ensures Find(b.tools, ToolName, a.tools[i].name).value.outputSchema.Some?
    ensures var o := a.tools[i].outputSchema.value;
            var n := Find(b.tools, ToolName, a.tools[i].name).value.outputSchema.value;
            Comparable(o, n) && Accepts(env, AsWritten, Meaning(n), result) ==>
              Accepts(env, Ignored, Meaning(o), result)
  {
    hide CompareChanges, Accepts, Covered, Matched, Meaning, Quiet;
    QuietMeans(hash, a, b);
    ToolStays(a, b, i);
    var (x, y) := (a.tools[i], Find(b.tools, ToolName, a.tools[i].name).value);
    ToolIsQuiet(x, y);
    OutputIsQuiet(x, y);
    var (o, n) := (x.outputSchema.value, y.outputSchema.value);
    if Comparable(o, n) && Accepts(env, AsWritten, Meaning(n), result) {
      OutputIsSound(env, Meaning(o), Meaning(n), Tool, x.name, [Key("outputSchema")], result);
    }
  }

  lemma ToolStays(a: Snapshot, b: Snapshot, i: nat)
    requires NoBreaking(AllChanges(a, b)) && !Failed(a, b, TOOLS) && i < |a.tools|
    ensures Find(b.tools, ToolName, a.tools[i].name).Some?
    ensures NoBreaking(ToolChanges(a.tools[i], Find(b.tools, ToolName, a.tools[i].name).value))
  {
    hide ToolChanges, ListChanges, ServerChanges, AllResourceChanges, AllTemplateChanges, AllPromptChanges;
    ListIsQuiet(a.tools, b.tools, ToolName, ToolChanges, Tool);
    assert ToolName(a.tools[i]) == a.tools[i].name;
    assert NoBreaking(AllToolChanges(a, b)) by {
      forall c | c in AllToolChanges(a, b) ensures c.severity != Breaking {
        assert c in AllChanges(a, b);
      }
    }
    assert Stays(a.tools[i], b.tools, ToolName, ToolChanges);
  }
}
