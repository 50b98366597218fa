/** Comparing two snapshots: every difference, classified, most severe first. */
module SnapshotDiff {
  import opened Json
  import opened Canonical
  import opened Changes
  import opened SchemaDiff
  import opened Snapshots

  function Of(severity: Severity, kind: ItemKind, name: string, path: seq<Step>): Change {
    Change(severity, kind, name, path)
  }

  function When(condition: bool, change: Change): seq<Change> {
    if condition then [change] else []
  }

  method PushWhen(condition: bool, change: Change, out: Report)
    modifies out
    ensures out.list == old(out.list) + When(condition, change)
  {
    if condition {
      out.Push(change);
    }
  }

  lemma Chain(s: seq<Change>, a: seq<Change>, b: seq<Change>, c: seq<Change>, d: seq<Change>, e: seq<Change>)
    ensures s + a + b + c + d + e == s + (a + b + c + d + e)
    ensures s + a + b + c + d == s + (a + b + c + d)
    ensures s + a + b + c == s + (a + b + c)
  {
  }

  // --- The server itself ---

  /** The capabilities declared, in the order they were written. */
  function Caps(capabilities: Value): seq<string> {
    if capabilities.Entries? then Keys(capabilities.entries) else []
  }

  function CapChanges(caps: seq<string>, others: seq<string>, severity: Severity): seq<Change> {
    if caps == [] then []
    else
      var last := caps[|caps| - 1];
      CapChanges(caps[..|caps| - 1], others, severity)
      + When(last !in others, Of(severity, Server, "server", [Key("capabilities"), Key(last)]))
  }

  function ServerChanges(a: Snapshot, b: Snapshot): seq<Change> {
    When(a.protocolVersion != b.protocolVersion, Of(Compatible, Server, "server", [Key("protocolVersion")]))
    + When(Meaning(a.serverInfo) != Meaning(b.serverInfo), Of(Cosmetic, Server, "server", [Key("serverInfo")]))
    + When(a.instructions != b.instructions, Of(Cosmetic, Server, "server", [Key("instructions")]))
    + CapChanges(Caps(a.capabilities), Caps(b.capabilities), Breaking)
    + CapChanges(Caps(b.capabilities), Caps(a.capabilities), Compatible)
  }

  method DiffServer(a: Snapshot, b: Snapshot, out: Report)
    modifies out
    ensures out.list == old(out.list) + ServerChanges(a, b)
  {
    hide When, CapChanges, Caps, Meaning;
    ghost var start := out.list;
    PushWhen(a.protocolVersion != b.protocolVersion, Of(Compatible, Server, "server", [Key("protocolVersion")]), out);
    ghost var first := When(a.protocolVersion != b.protocolVersion,
                            Of(Compatible, Server, "server", [Key("protocolVersion")]));
    PushWhen(Meaning(a.serverInfo) != Meaning(b.serverInfo), Of(Cosmetic, Server, "server", [Key("serverInfo")]), out);
    ghost var second := When(Meaning(a.serverInfo) != Meaning(b.serverInfo),
                             Of(Cosmetic, Server, "server", [Key("serverInfo")]));
    PushWhen(a.instructions != b.instructions, Of(Cosmetic, Server, "server", [Key("instructions")]), out);
    ghost var third := When(a.instructions != b.instructions, Of(Cosmetic, Server, "server", [Key("instructions")]));
    DiffCaps(Caps(a.capabilities), Caps(b.capabilities), Breaking, out);
    DiffCaps(Caps(b.capabilities), Caps(a.capabilities), Compatible, out);
    Chain(start, first, second, third, CapChanges(Caps(a.capabilities), Caps(b.capabilities), Breaking),
          CapChanges(Caps(b.capabilities), Caps(a.capabilities), Compatible));
  }

  method DiffCaps(caps: seq<string>, others: seq<string>, severity: Severity, out: Report)
    modifies out
    ensures out.list == old(out.list) + CapChanges(caps, others, severity)
  {
    for i := 0 to |caps|
      invariant out.list == old(out.list) + CapChanges(caps[..i], others, severity)
    {
      assert caps[..i + 1][..i] == caps[..i];
      var change := Of(severity, Server, "server", [Key("capabilities"), Key(caps[i])]);
      Associative(old(out.list), CapChanges(caps[..i], others, severity), When(caps[i] !in others, change));
      PushWhen(caps[i] !in others, change, out);
    }
    assert caps[..|caps|] == caps;
  }

  // --- Lists of items ---

  /** The first item with this name. */
  function Find<T>(items: seq<T>, name: T -> string, wanted: string): (found: Option<T>)
    ensures found.None? <==> forall i :: 0 <= i < |items| ==> name(items[i]) != wanted
    ensures found.Some? ==> exists i :: 0 <= i < |items| && items[i] == found.value && name(items[i]) == wanted
  {
    if items == [] then None
    else if name(items[0]) == wanted then Some(items[0])
    else
      var found := Find(items[1..], name, wanted);
      assert forall i :: 0 < i < |items| ==> items[i] == items[1..][i - 1];
      found
  }

  /** An item that is gone breaks callers; one that is still there is compared with its new self. */
  ghost function OldChange<T>(x: T, news: seq<T>, name: T -> string, pair: (T, T) -> seq<Change>,
                              kind: ItemKind): seq<Change> {
    match Find(news, name, name(x))
    case None => [Of(Breaking, kind, name(x), [])]
    case Some(now) => pair(x, now)
  }

  ghost function OldChanges<T>(olds: seq<T>, news: seq<T>, name: T -> string, pair: (T, T) -> seq<Change>,
                               kind: ItemKind): seq<Change> {
    if olds == [] then []
    else
      var last := olds[|olds| - 1];
      OldChanges(olds[..|olds| - 1], news, name, pair, kind) + OldChange(last, news, name, pair, kind)
  }

  function NewChanges<T>(news: seq<T>, olds: seq<T>, name: T -> string, kind: ItemKind): seq<Change> {
    if news == [] then []
    else
      var last := news[|news| - 1];
      NewChanges(news[..|news| - 1], olds, name, kind)
      + When(Find(olds, name, name(last)).None?, Of(Compatible, kind, name(last), []))
  }

  ghost function ListChanges<T>(olds: seq<T>, news: seq<T>, name: T -> string, pair: (T, T) -> seq<Change>,
                                kind: ItemKind): seq<Change> {
    OldChanges(olds, news, name, pair, kind) + NewChanges(news, olds, name, kind)
  }

  method DiffNew<T>(news: seq<T>, olds: seq<T>, name: T -> string, kind: ItemKind, out: Report)
    modifies out
    ensures out.list == old(out.list) + NewChanges(news, olds, name, kind)
  {
    for i := 0 to |news|
      invariant out.list == old(out.list) + NewChanges(news[..i], olds, name, kind)
    {
      assert news[..i + 1][..i] == news[..i];
      var added := Find(olds, name, name(news[i])).None?;
      Associative(old(out.list), NewChanges(news[..i], olds, name, kind),
                  When(added, Of(Compatible, kind, name(news[i]), [])));
      PushWhen(added, Of(Compatible, kind, name(news[i]), []), out);
    }
    assert news[..|news|] == news;
  }

  // --- Tools ---

  ghost function OutputChanges(x: ToolInfo, y: ToolInfo): seq<Change> {
    match (x.outputSchema, y.outputSchema)
    case (Some(o), Some(n)) => CompareChanges(Meaning(o), Meaning(n), Output, Tool, x.name, [Key("outputSchema")])
    case (None, Some(_)) => [Of(Compatible, Tool, x.name, [Key("outputSchema")])]
    case (Some(_), None) => [Of(Breaking, Tool, x.name, [Key("outputSchema")])]
    case (None, None) => []
  }

  ghost function ToolChanges(x: ToolInfo, y: ToolInfo): seq<Change> {
    When(x.description != y.description || x.title != y.title, Of(Cosmetic, Tool, x.name, [Key("description")]))
    + When(OptMeaning(x.annotations) != OptMeaning(y.annotations), Of(Cosmetic, Tool, x.name, [Key("annotations")]))
    + CompareChanges(Meaning(x.inputSchema), Meaning(y.inputSchema), Input, Tool, x.name, [Key("inputSchema")])
    + OutputChanges(x, y)
  }

  function ToolName(t: ToolInfo): string { t.name }

  ghost function AllToolChanges(a: Snapshot, b: Snapshot): seq<Change> {
    ListChanges(a.tools, b.tools, ToolName, ToolChanges, Tool)
  }

  method DiffOutput(x: ToolInfo, y: ToolInfo, out: Report)
    modifies out
    ensures out.list == old(out.list) + OutputChanges(x, y)
  {
    match (x.outputSchema, y.outputSchema)
    case (Some(o), Some(n)) => Compare(Meaning(o), Meaning(n), Output, Tool, x.name, [Key("outputSchema")], out);
    case (None, Some(_)) => out.Push(Of(Compatible, Tool, x.name, [Key("outputSchema")]));
    case (Some(_), None) => out.Push(Of(Breaking, Tool, x.name, [Key("outputSchema")]));
    case (None, None) =>
  }

  method DiffPair(x: ToolInfo, y: ToolInfo, out: Report)
    modifies out
    ensures out.list == old(out.list) + ToolChanges(x, y)
  {
    hide When, CompareChanges, OutputChanges, Meaning, OptMeaning;
    ghost var start := out.list;
    PushWhen(x.description != y.description || x.title != y.title, Of(Cosmetic, Tool, x.name, [Key("description")]),
             out);
    ghost var first := When(x.description != y.description || x.title != y.title,
                            Of(Cosmetic, Tool, x.name, [Key("description")]));
    PushWhen(OptMeaning(x.annotations) != OptMeaning(y.annotations), Of(Cosmetic, Tool, x.name, [Key("annotations")]),
             out);
    ghost var second := When(OptMeaning(x.annotations) != OptMeaning(y.annotations),
                             Of(Cosmetic, Tool, x.name, [Key("annotations")]));
    Compare(Meaning(x.inputSchema), Meaning(y.inputSchema), Input, Tool, x.name, [Key("inputSchema")], out);
    DiffOutput(x, y, out);
    Chain(start, first, second,
          CompareChanges(Meaning(x.inputSchema), Meaning(y.inputSchema), Input, Tool, x.name, [Key("inputSchema")]),
          OutputChanges(x, y), []);
  }

  method DiffTool(x: ToolInfo, news: seq<ToolInfo>, out: Report)
    modifies out
    ensures out.list == old(out.list) + OldChange(x, news, ToolName, ToolChanges, Tool)
  {
    hide ToolChanges;
    match Find(news, ToolName, ToolName(x))
    case None => out.Push(Of(Breaking, Tool, ToolName(x), []));
    case Some(now) => DiffPair(x, now, out);
  }

  method DiffTools(a: Snapshot, b: Snapshot, out: Report)
    modifies out
    ensures out.list == old(out.list) + AllToolChanges(a, b)
  {
    hide OldChange, NewChanges;
    var (olds, news) := (a.tools, b.tools);
    for i := 0 to |olds|
      invariant out.list == old(out.list) + OldChanges(olds[..i], news, ToolName, ToolChanges, Tool)
    {
      assert olds[..i + 1][..i] == olds[..i];
      Associative(old(out.list), OldChanges(olds[..i], news, ToolName, ToolChanges, Tool),
                  OldChange(olds[i], news, ToolName, ToolChanges, Tool));
      DiffTool(olds[i], news, out);
    }
    assert olds[..|olds|] == olds;
    DiffNew(news, olds, ToolName, Tool, out);
  }

  // --- Resources and templates ---

  function ResourceChanges(x: ResourceInfo, y: ResourceInfo): seq<Change> {
    When(x.mimeType != y.mimeType, Of(Breaking, Resource, x.uri, [Key("mimeType")]))
    + When(x.name != y.name || x.title != y.title || x.description != y.description,
           Of(Cosmetic, Resource, x.uri, [Key("description")]))
  }

  function ResourceUri(r: ResourceInfo): string { r.uri }

  ghost function AllResourceChanges(a: Snapshot, b: Snapshot): seq<Change> {
    ListChanges(a.resources, b.resources, ResourceUri, ResourceChanges, Resource)
  }

  method DiffResource(x: ResourceInfo, news: seq<ResourceInfo>, out: Report)
    modifies out
    ensures out.list == old(out.list) + OldChange(x, news, ResourceUri, ResourceChanges, Resource)
  {
    hide When;
    match Find(news, ResourceUri, ResourceUri(x))
    case None => out.Push(Of(Breaking, Resource, ResourceUri(x), []));
    case Some(y) =>
      var renamed := x.name != y.name || x.title != y.title || x.description != y.description;
      PushWhen(x.mimeType != y.mimeType, Of(Breaking, Resource, x.uri, [Key("mimeType")]), out);
      PushWhen(renamed, Of(Cosmetic, Resource, x.uri, [Key("description")]), out);
      Associative(old(out.list), When(x.mimeType != y.mimeType, Of(Breaking, Resource, x.uri, [Key("mimeType")])),
                  When(renamed, Of(Cosmetic, Resource, x.uri, [Key("description")])));
  }

  method DiffResources(a: Snapshot, b: Snapshot, out: Report)
    modifies out
    ensures out.list == old(out.list) + AllResourceChanges(a, b)
  {
    hide OldChange, NewChanges;
    var (olds, news) := (a.resources, b.resources);
    for i := 0 to |olds|
      invariant out.list == old(out.list) + OldChanges(olds[..i], news, ResourceUri, ResourceChanges, Resource)
    {
      assert olds[..i + 1][..i] == olds[..i];
      Associative(old(out.list), OldChanges(olds[..i], news, ResourceUri, ResourceChanges, Resource),
                  OldChange(olds[i], news, ResourceUri, ResourceChanges, Resource));
      DiffResource(olds[i], news, out);
    }
    assert olds[..|olds|] == olds;
    DiffNew(news, olds, ResourceUri, Resource, out);
  }

  function TemplateChanges(x: TemplateInfo, y: TemplateInfo): seq<Change> {
    When(x.mimeType != y.mimeType, Of(Breaking, ResourceTemplate, x.uriTemplate, [Key("mimeType")]))
    + When(x.name != y.name || x.title != y.title || x.description != y.description,
           Of(Cosmetic, ResourceTemplate, x.uriTemplate, [Key("description")]))
  }

  function TemplateUri(t: TemplateInfo): string { t.uriTemplate }

  ghost function AllTemplateChanges(a: Snapshot, b: Snapshot): seq<Change> {
    ListChanges(a.templates, b.templates, TemplateUri, TemplateChanges, ResourceTemplate)
  }

  method DiffTemplate(x: TemplateInfo, news: seq<TemplateInfo>, out: Report)
    modifies out
    ensures out.list == old(out.list) + OldChange(x, news, TemplateUri, TemplateChanges, ResourceTemplate)
  {
    hide When;
    match Find(news, TemplateUri, TemplateUri(x))
    case None => out.Push(Of(Breaking, ResourceTemplate, TemplateUri(x), []));
    case Some(y) =>
      var renamed := x.name != y.name || x.title != y.title || x.description != y.description;
      PushWhen(x.mimeType != y.mimeType, Of(Breaking, ResourceTemplate, x.uriTemplate, [Key("mimeType")]), out);
      PushWhen(renamed, Of(Cosmetic, ResourceTemplate, x.uriTemplate, [Key("description")]), out);
      Associative(old(out.list),
                  When(x.mimeType != y.mimeType, Of(Breaking, ResourceTemplate, x.uriTemplate, [Key("mimeType")])),
                  When(renamed, Of(Cosmetic, ResourceTemplate, x.uriTemplate, [Key("description")])));
  }

  method DiffTemplates(a: Snapshot, b: Snapshot, out: Report)
    modifies out
    ensures out.list == old(out.list) + AllTemplateChanges(a, b)
  {
    hide OldChange, NewChanges;
    var (olds, news) := (a.templates, b.templates);
    for i := 0 to |olds|
      invariant out.list == old(out.list) + OldChanges(olds[..i], news, TemplateUri, TemplateChanges, ResourceTemplate)
    {
      assert olds[..i + 1][..i] == olds[..i];
      Associative(old(out.list), OldChanges(olds[..i], news, TemplateUri, TemplateChanges, ResourceTemplate),
                  OldChange(olds[i], news, TemplateUri, TemplateChanges, ResourceTemplate));
      DiffTemplate(olds[i], news, out);
    }
    assert olds[..|olds|] == olds;
    DiffNew(news, olds, TemplateUri, ResourceTemplate, out);
  }

  // --- Prompts ---

  function ArgumentName(a: Argument): string { a.name }

  function ArgumentAt(prompt: string, severity: Severity, argument: string): Change {
    Of(severity, Prompt, prompt, [Key("arguments"), Key(argument)])
  }

  function ArgumentPair(prompt: string, x: Argument, y: Argument): seq<Change> {
    var (was, now) := (x.required == Some(true), y.required == Some(true));
    (if !was && now then [ArgumentAt(prompt, Breaking, x.name)]
     else if was && !now then [ArgumentAt(prompt, Compatible, x.name)] else [])
    + When(x.description != y.description, ArgumentAt(prompt, Cosmetic, x.name))
  }

  function OldArgument(prompt: string, x: Argument, news: seq<Argument>): seq<Change> {
    match Find(news, ArgumentName, x.name)
    case None => [ArgumentAt(prompt, Compatible, x.name)]
    case Some(now) => ArgumentPair(prompt, x, now)
  }

  function OldArguments(prompt: string, olds: seq<Argument>, news: seq<Argument>): seq<Change> {
    if olds == [] then []
    else
      var last := olds[|olds| - 1];
      OldArguments(prompt, olds[..|olds| - 1], news) + OldArgument(prompt, last, news)
  }

  function NewArguments(prompt: string, news: seq<Argument>, olds: seq<Argument>): seq<Change> {
    if news == [] then []
    else
      var last := news[|news| - 1];
      NewArguments(prompt, news[..|news| - 1], olds)
      + When(Find(olds, ArgumentName, last.name).None?,
             ArgumentAt(prompt, if last.required == Some(true) then Breaking else Compatible, last.name))
  }

  function PromptChanges(x: PromptInfo, y: PromptInfo): seq<Change> {
    When(x.description != y.description || x.title != y.title, Of(Cosmetic, Prompt, x.name, [Key("description")]))
    + OldArguments(x.name, x.arguments, y.arguments)
    + NewArguments(x.name, y.arguments, x.arguments)
  }

  function PromptName(p: PromptInfo): string { p.name }

  ghost function AllPromptChanges(a: Snapshot, b: Snapshot): seq<Change> {
    ListChanges(a.prompts, b.prompts, PromptName, PromptChanges, Prompt)
  }

  method DiffArgument(prompt: string, x: Argument, news: seq<Argument>, out: Report)
    modifies out
    ensures out.list == old(out.list) + OldArgument(prompt, x, news)
  {
    match Find(news, ArgumentName, x.name)
    case None => out.Push(ArgumentAt(prompt, Compatible, x.name));
    case Some(now) =>
      var was, must := x.required == Some(true), now.required == Some(true);
      if !was && must {
        out.Push(ArgumentAt(prompt, Breaking, x.name));
      } else if was && !must {
        out.Push(ArgumentAt(prompt, Compatible, x.name));
      }
      if x.description != now.description {
        out.Push(ArgumentAt(prompt, Cosmetic, x.name));
      }
  }

  method DiffArguments(prompt: string, olds: seq<Argument>, news: seq<Argument>, out: Report)
    modifies out
    ensures out.list == old(out.list) + OldArguments(prompt, olds, news)
  {
    hide OldArgument;
    for i := 0 to |olds|
      invariant out.list == old(out.list) + OldArguments(prompt, olds[..i], news)
    {
      assert olds[..i + 1][..i] == olds[..i];
      Associative(old(out.list), OldArguments(prompt, olds[..i], news), OldArgument(prompt, olds[i], news));
      DiffArgument(prompt, olds[i], news, out);
    }
    assert olds[..|olds|] == olds;
  }

  method DiffNewArguments(prompt: string, news: seq<Argument>, olds: seq<Argument>, out: Report)
    modifies out
    ensures out.list == old(out.list) + NewArguments(prompt, news, olds)
  {
    hide When;
    for i := 0 to |news|
      invariant out.list == old(out.list) + NewArguments(prompt, news[..i], olds)
    {
      assert news[..i + 1][..i] == news[..i];
      var added := Find(olds, ArgumentName, news[i].name).None?;
      var change := ArgumentAt(prompt, if news[i].required == Some(true) then Breaking else Compatible, news[i].name);
      Associative(old(out.list), NewArguments(prompt, news[..i], olds), When(added, change));
      PushWhen(added, change, out);
    }
    assert news[..|news|] == news;
  }

  method DiffPrompt(x: PromptInfo, news: seq<PromptInfo>, out: Report)
    modifies out
    ensures out.list == old(out.list) + OldChange(x, news, PromptName, PromptChanges, Prompt)
  {
    hide When, OldArguments, NewArguments;
    match Find(news, PromptName, PromptName(x))
    case None => out.Push(Of(Breaking, Prompt, PromptName(x), []));
    case Some(y) =>
      PushWhen(x.description != y.description || x.title != y.title, Of(Cosmetic, Prompt, x.name, [Key("description")]),
               out);
      DiffArguments(x.name, x.arguments, y.arguments, out);
      DiffNewArguments(x.name, y.arguments, x.arguments, out);
      ghost var renamed := When(x.description != y.description || x.title != y.title,
                                Of(Cosmetic, Prompt, x.name, [Key("description")]));
      Chain(old(out.list), renamed,
            OldArguments(x.name, x.arguments, y.arguments), NewArguments(x.name, y.arguments, x.arguments), [], []);
  }

  method DiffPrompts(a: Snapshot, b: Snapshot, out: Report)
    modifies out
    ensures out.list == old(out.list) + AllPromptChanges(a, b)
  {
    hide OldChange, NewChanges;
    var (olds, news) := (a.prompts, b.prompts);
    for i := 0 to |olds|
      invariant out.list == old(out.list) + OldChanges(olds[..i], news, PromptName, PromptChanges, Prompt)
    {
      assert olds[..i + 1][..i] == olds[..i];
      Associative(old(out.list), OldChanges(olds[..i], news, PromptName, PromptChanges, Prompt),
                  OldChange(olds[i], news, PromptName, PromptChanges, Prompt));
      DiffPrompt(olds[i], news, out);
    }
    assert olds[..|olds|] == olds;
    DiffNew(news, olds, PromptName, Prompt, out);
  }
}
