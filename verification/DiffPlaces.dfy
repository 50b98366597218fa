/** Where every difference of two snapshots is reported, and how severe; and so when a report says that
    nothing changed. */
module DiffPlaces {
  import opened Json
  import opened Canonical
  import opened Changes
  import opened SchemaDiff
  import opened Snapshots
  import opened SnapshotDiff
  import opened DiffReport

  lemma InParts(x: seq<Change>, y: seq<Change>, c: Change)
    ensures c in x + y <==> c in x || c in y
  {
  }

  lemma InWhen(condition: bool, d: Change, c: Change)
    ensures c in When(condition, d) <==> condition && c == d
  {
  }

  // --- The server itself ---

  lemma {:induction false} CapReports(caps: seq<string>, others: seq<string>, severity: Severity, c: Change)
    ensures c in CapChanges(caps, others, severity) <==>
              exists cap :: cap in caps && cap !in others
                && c == Change(severity, Server, "server", [Key("capabilities"), Key(cap)])
  {
    if caps != [] {
      var n := |caps| - 1;
      CapReports(caps[..n], others, severity, c);
      InWhen(caps[n] !in others, Of(severity, Server, "server", [Key("capabilities"), Key(caps[n])]), c);
      assert caps == caps[..n] + [caps[n]];
    }
  }

  /** What is reported of the server: each part that differs, at its own place and with its own severity. */
  ghost predicate OfServer(a: Snapshot, b: Snapshot, c: Change) {
    || (c == Change(Compatible, Server, "server", [Key("protocolVersion")]) && a.protocolVersion != b.protocolVersion)
    || (c == Change(Cosmetic, Server, "server", [Key("serverInfo")]) && Meaning(a.serverInfo) != Meaning(b.serverInfo))
    || (c == Change(Cosmetic, Server, "server", [Key("instructions")]) && a.instructions != b.instructions)
    || (exists cap :: cap in Caps(a.capabilities) && cap !in Caps(b.capabilities)
          && c == Change(Breaking, Server, "server", [Key("capabilities"), Key(cap)]))
    || (exists cap :: cap in Caps(b.capabilities) && cap !in Caps(a.capabilities)
          && c == Change(Compatible, Server, "server", [Key("capabilities"), Key(cap)]))
  }

  lemma ServerReports(a: Snapshot, b: Snapshot, c: Change)
    ensures c in ServerChanges(a, b) <==> OfServer(a, b, c)
  {
    CapReports(Caps(a.capabilities), Caps(b.capabilities), Breaking, c);
    CapReports(Caps(b.capabilities), Caps(a.capabilities), Compatible, c);
    hide CapChanges, Caps, Meaning;
    InWhen(a.protocolVersion != b.protocolVersion, Of(Compatible, Server, "server", [Key("protocolVersion")]), c);
    InWhen(Meaning(a.serverInfo) != Meaning(b.serverInfo), Of(Cosmetic, Server, "server", [Key("serverInfo")]), c);
    InWhen(a.instructions != b.instructions, Of(Cosmetic, Server, "server", [Key("instructions")]), c);
    hide When;
  }

  /** Nothing of the server differs: its capabilities are compared as a set. */
  ghost predicate ServersAgree(a: Snapshot, b: Snapshot) {
    && a.protocolVersion == b.protocolVersion && Meaning(a.serverInfo) == Meaning(b.serverInfo)
    && a.instructions == b.instructions
    && (forall cap :: cap in Caps(a.capabilities) <==> cap in Caps(b.capabilities))
  }

  lemma NoServerChanges(a: Snapshot, b: Snapshot)
    ensures ServerChanges(a, b) == [] <==> ServersAgree(a, b)
  {
    hide ServerChanges, Caps, Meaning;
    if ServerChanges(a, b) == [] {
      if a.protocolVersion != b.protocolVersion {
        ServerReports(a, b, Change(Compatible, Server, "server", [Key("protocolVersion")]));
      }
      if Meaning(a.serverInfo) != Meaning(b.serverInfo) {
        ServerReports(a, b, Change(Cosmetic, Server, "server", [Key("serverInfo")]));
      }
      if a.instructions != b.instructions {
        ServerReports(a, b, Change(Cosmetic, Server, "server", [Key("instructions")]));
      }
      forall cap ensures cap in Caps(a.capabilities) <==> cap in Caps(b.capabilities) {
        ServerReports(a, b, Change(Breaking, Server, "server", [Key("capabilities"), Key(cap)]));
        ServerReports(a, b, Change(Compatible, Server, "server", [Key("capabilities"), Key(cap)]));
      }
    } else if ServersAgree(a, b) {
      ServerReports(a, b, ServerChanges(a, b)[0]);
      assert false;
    }
  }

  // --- Lists of items ---

  lemma {:induction false} OldReports<T>(olds: seq<T>, news: seq<T>, name: T -> string, pair: (T, T) -> seq<Change>,
                                         kind: ItemKind, c: Change)
    ensures c in OldChanges(olds, news, name, pair, kind) <==>
              exists i :: 0 <= i < |olds| && c in OldChange(olds[i], news, name, pair, kind)
  {
    hide OldChange;
    if olds != [] {
      var n := |olds| - 1;
      OldReports(olds[..n], news, name, pair, kind, c);
      InParts(OldChanges(olds[..n], news, name, pair, kind), OldChange(olds[n], news, name, pair, kind), c);
      assert forall i :: 0 <= i < n ==> olds[..n][i] == olds[i];
    }
  }

  lemma {:induction false} NewReports<T>(news: seq<T>, olds: seq<T>, name: T -> string, kind: ItemKind, c: Change)
    ensures c in NewChanges(news, olds, name, kind) <==>
              exists i :: 0 <= i < |news| && Find(olds, name, name(news[i])).None?
                && c == Change(Compatible, kind, name(news[i]), [])
  {
    hide Find;
    if news != [] {
      var n := |news| - 1;
      NewReports(news[..n], olds, name, kind, c);
      InWhen(Find(olds, name, name(news[n])).None?, Of(Compatible, kind, name(news[n]), []), c);
      InParts(NewChanges(news[..n], olds, name, kind),
              When(Find(olds, name, name(news[n])).None?, Of(Compatible, kind, name(news[n]), [])), c);
      hide NewChanges;
      assert forall i :: 0 <= i < n ==> news[..n][i] == news[i];
    }
  }

  /** What is reported of a list: items gone are breaking and items new compatible, under their names, and
      the others have what their pair has. */
  lemma ListReports<T>(olds: seq<T>, news: seq<T>, name: T -> string, pair: (T, T) -> seq<Change>, kind: ItemKind,
                       c: Change)
    ensures c in ListChanges(olds, news, name, pair, kind) <==>
              || (exists i :: 0 <= i < |olds|
                    && var now := Find(news, name, name(olds[i]));
                       if now.None? then c == Change(Breaking, kind, name(olds[i]), [])
                       else c in pair(olds[i], now.value))
              || (exists i :: 0 <= i < |news| && Find(olds, name, name(news[i])).None?
                    && c == Change(Compatible, kind, name(news[i]), []))
  {
    OldReports(olds, news, name, pair, kind, c);
    NewReports(news, olds, name, kind, c);
    hide OldChanges, NewChanges, Find;
  }

  // --- Pairs of items ---

  /** A new MIME type is breaking, a new name, title or description cosmetic. */
  lemma ResourceReports(x: ResourceInfo, y: ResourceInfo, c: Change)
    ensures c in ResourceChanges(x, y) <==>
              || (c == Change(Breaking, Resource, x.uri, [Key("mimeType")]) && x.mimeType != y.mimeType)
              || (c == Change(Cosmetic, Resource, x.uri, [Key("description")])
                  && !(x.name == y.name && x.title == y.title && x.description == y.description))
  {
  }

  lemma TemplateReports(x: TemplateInfo, y: TemplateInfo, c: Change)
    ensures c in TemplateChanges(x, y) <==>
              || (c == Change(Breaking, ResourceTemplate, x.uriTemplate, [Key("mimeType")]) && x.mimeType != y.mimeType)
              || (c == Change(Cosmetic, ResourceTemplate, x.uriTemplate, [Key("description")])
                  && !(x.name == y.name && x.title == y.title && x.description == y.description))
  {
  }

  /** A new text is cosmetic, an output schema that goes breaking and one that appears compatible; schemas on
      both sides are compared, one as input and one as output. */
  lemma ToolReports(x: ToolInfo, y: ToolInfo, c: Change)
    ensures c in ToolChanges(x, y) <==>
              || (c == Change(Cosmetic, Tool, x.name, [Key("description")])
                  && !(x.description == y.description && x.title == y.title))
              || (c == Change(Cosmetic, Tool, x.name, [Key("annotations")])
                  && OptMeaning(x.annotations) != OptMeaning(y.annotations))
              || c in CompareChanges(Meaning(x.inputSchema), Meaning(y.inputSchema), Input, Tool, x.name,
                                     [Key("inputSchema")])
              || (x.outputSchema.Some? && y.outputSchema.Some?
                  && c in CompareChanges(Meaning(x.outputSchema.value), Meaning(y.outputSchema.value), Output, Tool,
                                         x.name, [Key("outputSchema")]))
              || (x.outputSchema.Some? && y.outputSchema.None?
                  && c == Change(Breaking, Tool, x.name, [Key("outputSchema")]))
              || (x.outputSchema.None? && y.outputSchema.Some?
                  && c == Change(Compatible, Tool, x.name, [Key("outputSchema")]))
  {
    hide CompareChanges, Meaning, OptMeaning;
  }

  predicate Must(a: Argument) {
    a.required == Some(true)
  }

  /** An argument that must be given now is breaking, one that may be left out now or is gone compatible, and
      a new description cosmetic. */
  predicate OfOldArgument(prompt: string, x: Argument, news: seq<Argument>, c: Change) {
    var (now, at) := (Find(news, ArgumentName, x.name), [Key("arguments"), Key(x.name)]);
    || (now.None? && c == Change(Compatible, Prompt, prompt, at))
    || (now.Some? && !Must(x) && Must(now.value) && c == Change(Breaking, Prompt, prompt, at))
    || (now.Some? && Must(x) && !Must(now.value) && c == Change(Compatible, Prompt, prompt, at))
    || (now.Some? && x.description != now.value.description && c == Change(Cosmetic, Prompt, prompt, at))
  }

  /** A new argument is breaking when it must be given, and compatible when not. */
  predicate OfNewArgument(prompt: string, y: Argument, olds: seq<Argument>, c: Change) {
    && Find(olds, ArgumentName, y.name).None?
    && c == Change(if Must(y) then Breaking else Compatible, Prompt, prompt, [Key("arguments"), Key(y.name)])
  }

  lemma OldArgumentReports(prompt: string, x: Argument, news: seq<Argument>, c: Change)
    ensures c in OldArgument(prompt, x, news) <==> OfOldArgument(prompt, x, news, c)
  {
    hide Find;
  }

  lemma {:induction false} OldArgumentsReport(prompt: string, olds: seq<Argument>, news: seq<Argument>, c: Change)
    ensures c in OldArguments(prompt, olds, news) <==>
              exists i :: 0 <= i < |olds| && OfOldArgument(prompt, olds[i], news, c)
  {
    hide OldArgument, OfOldArgument, Find;
    if olds != [] {
      var n := |olds| - 1;
      OldArgumentsReport(prompt, olds[..n], news, c);
      OldArgumentReports(prompt, olds[n], news, c);
      InParts(OldArguments(prompt, olds[..n], news), OldArgument(prompt, olds[n], news), c);
      hide OldArguments;
      assert forall i :: 0 <= i < n ==> olds[..n][i] == olds[i];
    }
  }

  lemma NewArgumentReports(prompt: string, y: Argument, olds: seq<Argument>, c: Change)
    ensures c in When(Find(olds, ArgumentName, y.name).None?,
                      ArgumentAt(prompt, if y.required == Some(true) then Breaking else Compatible, y.name))
        <==> OfNewArgument(prompt, y, olds, c)
  {
    hide Find;
  }

  lemma {:induction false} NewArgumentsReport(prompt: string, news: seq<Argument>, olds: seq<Argument>, c: Change)
    ensures c in NewArguments(prompt, news, olds) <==>
              exists i :: 0 <= i < |news| && OfNewArgument(prompt, news[i], olds, c)
  {
    hide Find, OfNewArgument, ArgumentAt, When;
    if news != [] {
      var n := |news| - 1;
      NewArgumentsReport(prompt, news[..n], olds, c);
      NewArgumentReports(prompt, news[n], olds, c);
      InParts(NewArguments(prompt, news[..n], olds),
              When(Find(olds, ArgumentName, news[n].name).None?,
                   ArgumentAt(prompt, if news[n].required == Some(true) then Breaking else Compatible, news[n].name)),
              c);
      hide NewArguments;
      assert forall i :: 0 <= i < n ==> news[..n][i] == news[i];
    }
  }

  lemma PromptReports(x: PromptInfo, y: PromptInfo, c: Change)
    ensures c in PromptChanges(x, y) <==>
              || (c == Change(Cosmetic, Prompt, x.name, [Key("description")])
                  && !(x.description == y.description && x.title == y.title))
              || (exists i :: 0 <= i < |x.arguments| && OfOldArgument(x.name, x.arguments[i], y.arguments, c))
              || (exists i :: 0 <= i < |y.arguments| && OfNewArgument(x.name, y.arguments[i], x.arguments, c))
  {
    OldArgumentsReport(x.name, x.arguments, y.arguments, c);
    NewArgumentsReport(x.name, y.arguments, x.arguments, c);
    InWhen(x.description != y.description || x.title != y.title,
           Of(Cosmetic, Prompt, x.name, [Key("description")]), c);
    hide OldArguments, NewArguments, When, OfOldArgument, OfNewArgument;
  }

  // --- When nothing is reported ---

  /** Each old item has a new self that agrees with it, and no new item is without an old one. */
  ghost predicate ListsAgree<T>(olds: seq<T>, news: seq<T>, name: T -> string, agree: (T, T) -> bool) {
    && (forall i :: 0 <= i < |olds| ==>
          var now := Find(news, name, name(olds[i])); now.Some? && agree(olds[i], now.value))
    && (forall i :: 0 <= i < |news| ==> Find(olds, name, name(news[i])).Some?)
  }

  lemma NoListChanges<T>(olds: seq<T>, news: seq<T>, name: T -> string, pair: (T, T) -> seq<Change>,
                         agree: (T, T) -> bool, kind: ItemKind)
    requires forall x, y :: pair(x, y) == [] <==> agree(x, y)
    ensures ListChanges(olds, news, name, pair, kind) == [] <==> ListsAgree(olds, news, name, agree)
  {
    NoOldChanges(olds, news, name, pair, kind);
    NoNewChanges(news, olds, name, kind);
    hide OldChanges, NewChanges, Find;
  }

  /** Nothing that is compared differs. */
  ghost predicate SnapshotsAgree(a: Snapshot, b: Snapshot) {
    && ServersAgree(a, b)
    && (Failed(a, b, TOOLS) || ListsAgree(a.tools, b.tools, ToolName, ToolsAgree))
    && (Failed(a, b, RESOURCES) || ListsAgree(a.resources, b.resources, ResourceUri, ResourcesAgree))
    && (Failed(a, b, TEMPLATES) || ListsAgree(a.templates, b.templates, TemplateUri, TemplatesAgree))
    && (Failed(a, b, PROMPTS) || ListsAgree(a.prompts, b.prompts, PromptName, PromptsAgree))
  }

  lemma NoToolsChange(a: Snapshot, b: Snapshot)
    ensures AllToolChanges(a, b) == [] <==> ListsAgree(a.tools, b.tools, ToolName, ToolsAgree)
    ensures AllPromptChanges(a, b) == [] <==> ListsAgree(a.prompts, b.prompts, PromptName, PromptsAgree)
  {
    hide ToolChanges, PromptChanges, ToolsAgree, PromptsAgree, ListChanges, ListsAgree;
    forall x, y ensures ToolChanges(x, y) == [] <==> ToolsAgree(x, y) {
      NoToolChanges(x, x, y);
    }
    forall x, y ensures PromptChanges(x, y) == [] <==> PromptsAgree(x, y) {
      NoPromptChanges(x, x, y);
    }
    NoListChanges(a.tools, b.tools, ToolName, ToolChanges, ToolsAgree, Tool);
    NoListChanges(a.prompts, b.prompts, PromptName, PromptChanges, PromptsAgree, Prompt);
  }

  lemma NoResourcesChange(a: Snapshot, b: Snapshot)
    ensures AllResourceChanges(a, b) == [] <==> ListsAgree(a.resources, b.resources, ResourceUri, ResourcesAgree)
    ensures AllTemplateChanges(a, b) == [] <==> ListsAgree(a.templates, b.templates, TemplateUri, TemplatesAgree)
  {
    hide ListChanges, ListsAgree;
    NoListChanges(a.resources, b.resources, ResourceUri, ResourceChanges, ResourcesAgree, Resource);
    NoListChanges(a.templates, b.templates, TemplateUri, TemplateChanges, TemplatesAgree, ResourceTemplate);
  }

  /** Every comparison together finds nothing exactly when nothing that is compared differs. */
  lemma NothingIsFound(a: Snapshot, b: Snapshot)
    ensures AllChanges(a, b) == [] <==> SnapshotsAgree(a, b)
  {
    hide ServerChanges, AllToolChanges, AllResourceChanges, AllTemplateChanges, AllPromptChanges, Failed;
    hide ServersAgree, ListsAgree;
    NoServerChanges(a, b);
    NoToolsChange(a, b);
    NoResourcesChange(a, b);
  }

  /** A report of snapshots with unequal digests says that nothing changed exactly when that is so. */
  lemma UnchangedMeans(hash: Value -> string, a: Snapshot, b: Snapshot)
    requires Digest(hash, a) != Digest(hash, b)
    ensures Reported(hash, Some(a), b).outcome.Unchanged? <==> SnapshotsAgree(a, b)
  {
    hide AllChanges, SnapshotsAgree, Skipped, Digest;
    NothingIsFound(a, b);
    ReportCounts(AllChanges(a, b), Skipped(a, b));
  }
}
