/** The comparison of two snapshots as it is reported: the early exit on equal digests, the lists left
    out, the order and the counts. */
module DiffReport {
  import opened Json
  import opened Canonical
  import opened Changes
  import opened Snapshots
  import opened SchemaDiff
  import opened SnapshotDiff

  const TOOLS := "tools/list"
  const RESOURCES := "resources/list"
  const TEMPLATES := "resources/templates/list"
  const PROMPTS := "prompts/list"

  datatype Outcome = First | Unchanged | Changed(changes: seq<Change>)

  datatype Diff = Diff(outcome: Outcome, breaking: nat, compatible: nat, cosmetic: nat, skipped: seq<string>)

  // --- Most severe first, then by name ---

  function Rank(s: Severity): nat {
    match s case Cosmetic => 0 case Compatible => 1 case Breaking => 2
  }

  predicate NoLater(a: Change, b: Change) {
    Rank(a.severity) > Rank(b.severity) || (a.severity == b.severity && Leq(a.name, b.name))
  }

  function Insert(c: Change, sorted: seq<Change>): seq<Change> {
    if sorted == [] then [c]
    else if NoLater(c, sorted[0]) then [c] + sorted
    else [sorted[0]] + Insert(c, sorted[1..])
  }

  function Sort(changes: seq<Change>): seq<Change> {
    if changes == [] then [] else Insert(changes[0], Sort(changes[1..]))
  }

  predicate InOrder(changes: seq<Change>) {
    forall i, j :: 0 <= i < j < |changes| ==> NoLater(changes[i], changes[j])
  }

  /** The changes of one severity about one item, in order. */
  function Only(changes: seq<Change>, severity: Severity, name: string): seq<Change> {
    if changes == [] then []
    else
      (if changes[0].severity == severity && changes[0].name == name then [changes[0]] else [])
      + Only(changes[1..], severity, name)
  }

  lemma NoLaterTotal(a: Change, b: Change)
    ensures NoLater(a, b) || NoLater(b, a)
  {
    LeqTotal(a.name, b.name);
  }

  lemma NoLaterTransitive(a: Change, b: Change, c: Change)
    requires NoLater(a, b) && NoLater(b, c)
    ensures NoLater(a, c)
  {
    if a.severity == b.severity == c.severity {
      LeqTransitive(a.name, b.name, c.name);
    }
  }

  lemma {:induction false} InsertSorts(c: Change, sorted: seq<Change>)
    requires InOrder(sorted)
    ensures InOrder(Insert(c, sorted)) && multiset(Insert(c, sorted)) == multiset(sorted) + multiset{c}
  {
    hide NoLater;
    if sorted != [] {
      var (first, rest) := (sorted[0], sorted[1..]);
      assert sorted == [first] + rest;
      if NoLater(c, first) {
        forall j | 0 <= j < |sorted| ensures NoLater(c, sorted[j]) {
          if j > 0 {
            NoLaterTransitive(c, first, sorted[j]);
          }
        }
      } else {
        NoLaterTotal(c, first);
        InsertSorts(c, rest);
        var inserted := Insert(c, rest);
        forall j | 0 <= j < |inserted| ensures NoLater(first, inserted[j]) {
          assert inserted[j] in multiset(inserted);
          assert inserted[j] == c || inserted[j] in rest;
        }
      }
    }
  }

  lemma OnlyFirst(c: Change, rest: seq<Change>, severity: Severity, name: string)
    ensures Only([c] + rest, severity, name)
         == (if c.severity == severity && c.name == name then [c] else []) + Only(rest, severity, name)
  {
    assert ([c] + rest)[1..] == rest;
  }

  lemma {:induction false} InsertIsStable(c: Change, sorted: seq<Change>, severity: Severity, name: string)
    ensures Only(Insert(c, sorted), severity, name) == Only([c] + sorted, severity, name)
  {
    hide Only, Leq;
    if sorted != [] && !NoLater(c, sorted[0]) {
      var (first, rest) := (sorted[0], sorted[1..]);
      assert sorted == [first] + rest;
      LeqTotal(name, name);
      InsertIsStable(c, rest, severity, name);
      OnlyFirst(first, Insert(c, rest), severity, name);
      OnlyFirst(c, rest, severity, name);
      OnlyFirst(c, sorted, severity, name);
      OnlyFirst(first, rest, severity, name);
    } else {
      assert Insert(c, sorted) == [c] + sorted;
    }
  }

  /** Sorting reorders the changes, most severe first and then by name, and keeps those of one item
      and severity in the order they were found. */
  lemma {:induction false} SortSorts(changes: seq<Change>)
    ensures InOrder(Sort(changes)) && multiset(Sort(changes)) == multiset(changes)
    ensures forall severity, name :: Only(Sort(changes), severity, name) == Only(changes, severity, name)
  {
    if changes != [] {
      SortSorts(changes[1..]);
      InsertSorts(changes[0], Sort(changes[1..]));
      assert changes == [changes[0]] + changes[1..];
      forall severity, name ensures Only(Sort(changes), severity, name) == Only(changes, severity, name) {
        InsertIsStable(changes[0], Sort(changes[1..]), severity, name);
        assert ([changes[0]] + Sort(changes[1..]))[1..] == Sort(changes[1..]);
      }
    }
  }

  function Count(changes: seq<Change>, severity: Severity): nat {
    if changes == [] then 0 else (if changes[0].severity == severity then 1 else 0) + Count(changes[1..], severity)
  }

  function FromChanges(found: seq<Change>, skipped: seq<string>): Diff {
    var changes := Sort(found);
    Diff(if changes == [] then Unchanged else Changed(changes),
         Count(changes, Breaking), Count(changes, Compatible), Count(changes, Cosmetic), skipped)
  }

  lemma {:induction false} CountsAdd(changes: seq<Change>)
    ensures Count(changes, Breaking) + Count(changes, Compatible) + Count(changes, Cosmetic) == |changes|
    ensures forall severity ::
              Count(changes, severity) > 0 <==> exists i :: 0 <= i < |changes| && changes[i].severity == severity
  {
    if changes != [] {
      CountsAdd(changes[1..]);
      assert forall i :: 0 < i < |changes| ==> changes[i] == changes[1..][i - 1];
      forall severity
        ensures Count(changes, severity) > 0 <==> exists i :: 0 <= i < |changes| && changes[i].severity == severity
      {
        if Count(changes[1..], severity) > 0 {
          var i :| 0 <= i < |changes[1..]| && changes[1..][i].severity == severity;
          assert changes[i + 1].severity == severity;
        }
      }
    }
  }

  lemma {:induction false} InsertKeepsCounts(c: Change, sorted: seq<Change>, severity: Severity)
    ensures Count(Insert(c, sorted), severity) == Count(sorted, severity) + if c.severity == severity then 1 else 0
  {
    hide NoLater;
    if sorted != [] && !NoLater(c, sorted[0]) {
      InsertKeepsCounts(c, sorted[1..], severity);
    } else {
      assert Insert(c, sorted) == [c] + sorted && ([c] + sorted)[1..] == sorted;
    }
  }

  lemma {:induction false} SortKeepsCounts(changes: seq<Change>, severity: Severity)
    ensures Count(Sort(changes), severity) == Count(changes, severity)
  {
    if changes != [] {
      SortKeepsCounts(changes[1..], severity);
      InsertKeepsCounts(changes[0], Sort(changes[1..]), severity);
    }
  }

  /** Breaking changes are listed first, then compatible ones, then cosmetic ones, each by name. */
  lemma SeverestFirst(changes: seq<Change>, i: nat, j: nat)
    requires i < j < |Sort(changes)|
    ensures var (c, d) := (Sort(changes)[i], Sort(changes)[j]);
            && (d.severity.Breaking? ==> c.severity.Breaking?)
            && (d.severity.Compatible? ==> !c.severity.Cosmetic?)
            && (c.severity == d.severity ==> Leq(c.name, d.name))
  {
    SortSorts(changes);
    hide Sort;
    assert NoLater(Sort(changes)[i], Sort(changes)[j]);
  }

  /** The counts are of what was found, and a breaking change, when there is one, comes first. */
  lemma ReportCounts(found: seq<Change>, skipped: seq<string>)
    ensures var report := FromChanges(found, skipped);
            && report.breaking + report.compatible + report.cosmetic == |found|
            && (report.breaking > 0 <==> !NoBreaking(found))
            && (report.breaking > 0 ==> report.outcome.Changed? && report.outcome.changes[0].severity == Breaking)
            && (report.outcome.Unchanged? <==> found == [])
            && report.breaking == Count(found, Breaking) && report.compatible == Count(found, Compatible)
            && report.cosmetic == Count(found, Cosmetic) && report.skipped == skipped
  {
    var changes := Sort(found);
    SortKeepsCounts(found, Breaking);
    SortKeepsCounts(found, Compatible);
    SortKeepsCounts(found, Cosmetic);
    SortSorts(found);
    CountsAdd(changes);
    assert |multiset(changes)| == |changes| && |multiset(found)| == |found|;
    forall c ensures c in changes <==> c in found {
      assert c in multiset(changes) <==> c in multiset(found);
    }
    if Count(changes, Breaking) > 0 {
      var i :| 0 <= i < |changes| && changes[i].severity == Breaking;
      assert changes[i] in found;
      assert i == 0 || NoLater(changes[0], changes[i]);
    }
    if !NoBreaking(found) {
      var c :| c in found && c.severity == Breaking;
      assert c in changes;
    }
  }

  // --- The whole comparison ---

  predicate Failed(a: Snapshot, b: Snapshot, list: string) {
    list in a.listFailures || list in b.listFailures
  }

  /** The lists not compared, because one side could not read them. */
  function Skipped(a: Snapshot, b: Snapshot): seq<string> {
    (if Failed(a, b, TOOLS) then [TOOLS] else []) + (if Failed(a, b, RESOURCES) then [RESOURCES] else [])
    + (if Failed(a, b, TEMPLATES) then [TEMPLATES] else []) + (if Failed(a, b, PROMPTS) then [PROMPTS] else [])
  }

  ghost function AllChanges(a: Snapshot, b: Snapshot): seq<Change> {
    ServerChanges(a, b)
    + (if Failed(a, b, TOOLS) then [] else AllToolChanges(a, b))
    + (if Failed(a, b, RESOURCES) then [] else AllResourceChanges(a, b))
    + (if Failed(a, b, TEMPLATES) then [] else AllTemplateChanges(a, b))
    + (if Failed(a, b, PROMPTS) then [] else AllPromptChanges(a, b))
  }

  /** Every comparison made, whatever the digests. */
  ghost function Compared(before: Option<Snapshot>, after: Snapshot): Diff {
    if before.None? then Diff(First, 0, 0, 0, [])
    else FromChanges(AllChanges(before.value, after), Skipped(before.value, after))
  }

  function Digest(hash: Value -> string, s: Snapshot): string {
    hash(Canonicalize(Content(s)))
  }

  /** The two have one digest although their canonical forms differ. */
  ghost predicate Collide(hash: Value -> string, a: Snapshot, b: Snapshot) {
    Digest(hash, a) == Digest(hash, b) && Canonicalize(Content(a)) != Canonicalize(Content(b))
  }

  method RunComparisons(a: Snapshot, b: Snapshot, out: Report)
    modifies out
    ensures out.list == old(out.list) + AllChanges(a, b)
  {
    hide ServerChanges, AllToolChanges, AllResourceChanges, AllTemplateChanges, AllPromptChanges, Failed;
    ghost var start := out.list;
    DiffServer(a, b, out);
    if !Failed(a, b, TOOLS) {
      DiffTools(a, b, out);
    }
    if !Failed(a, b, RESOURCES) {
      DiffResources(a, b, out);
    }
    if !Failed(a, b, TEMPLATES) {
      DiffTemplates(a, b, out);
    }
    if !Failed(a, b, PROMPTS) {
      DiffPrompts(a, b, out);
    }
    SnapshotDiff.Chain(start, ServerChanges(a, b),
                       if Failed(a, b, TOOLS) then [] else AllToolChanges(a, b),
                       if Failed(a, b, RESOURCES) then [] else AllResourceChanges(a, b),
                       if Failed(a, b, TEMPLATES) then [] else AllTemplateChanges(a, b),
                       if Failed(a, b, PROMPTS) then [] else AllPromptChanges(a, b));
  }

  predicate UniqueNames<T>(items: seq<T>, name: T -> string) {
    forall i, j :: 0 <= i < j < |items| ==> name(items[i]) != name(items[j])
  }

  predicate UniqueArguments(prompts: seq<PromptInfo>) {
    forall i :: 0 <= i < |prompts| ==> UniqueNames(prompts[i].arguments, ArgumentName)
  }

  predicate NamesAreUnique(s: Snapshot) {
    && UniqueNames(s.tools, ToolName) && UniqueNames(s.resources, ResourceUri)
    && UniqueNames(s.templates, TemplateUri) && UniqueNames(s.prompts, PromptName) && UniqueArguments(s.prompts)
  }

  lemma {:induction false} FindUnique<T>(items: seq<T>, name: T -> string, i: nat)
    requires UniqueNames(items, name) && i < |items|
    ensures Find(items, name, name(items[i])) == Some(items[i])
  {
    if i > 0 {
      assert forall j, k :: 0 <= j < k < |items| - 1 ==>
               name(items[1..][j]) == name(items[j + 1]) && name(items[1..][k]) == name(items[k + 1]);
      FindUnique(items[1..], name, i - 1);
    }
  }

  // --- A list against another with the same content ---

  /** Two lists have no changes exactly when each old item has a new self without changes, and no new
      item is without an old one. */
  lemma {:induction false} NoOldChanges<T>(olds: seq<T>, news: seq<T>, name: T -> string,
                                           pair: (T, T) -> seq<Change>, kind: ItemKind)
    ensures OldChanges(olds, news, name, pair, kind) == [] <==>
              forall i :: 0 <= i < |olds| ==>
                var now := Find(news, name, name(olds[i])); now.Some? && pair(olds[i], now.value) == []
  {
    hide Find;
    if olds != [] {
      var n := |olds| - 1;
      NoOldChanges(olds[..n], news, name, pair, kind);
      assert forall i :: 0 <= i < n ==> olds[..n][i] == olds[i];
    }
  }

  lemma {:induction false} NoNewChanges<T>(news: seq<T>, olds: seq<T>, name: T -> string, kind: ItemKind)
    ensures NewChanges(news, olds, name, kind) == [] <==>
              forall i :: 0 <= i < |news| ==> Find(olds, name, name(news[i])).Some?
  {
    hide Find, Of;
    if news != [] {
      var n := |news| - 1;
      NoNewChanges(news[..n], olds, name, kind);
      var last := When(Find(olds, name, name(news[n])).None?, Of(Compatible, kind, name(news[n]), []));
      assert NewChanges(news, olds, name, kind) == NewChanges(news[..n], olds, name, kind) + last;
      hide NewChanges;
      assert forall i :: 0 <= i < n ==> news[..n][i] == news[i];
    }
  }

  /** Each item agrees with the first of its name. */
  ghost predicate FirstsAgree<T>(items: seq<T>, name: T -> string, agree: (T, T) -> bool) {
    forall i :: 0 <= i < |items| ==>
      var first := Find(items, name, name(items[i])); first.Some? && agree(items[i], first.value)
  }

  lemma SameItems<T>(olds: seq<T>, news: seq<T>, name: T -> string, pair: (T, T) -> seq<Change>,
                     agree: (T, T) -> bool, kind: ItemKind)
    requires |olds| == |news| && forall i :: 0 <= i < |olds| ==> name(olds[i]) == name(news[i])
    requires forall i, y :: 0 <= i < |olds| ==> (pair(olds[i], y) == [] <==> agree(news[i], y))
    ensures ListChanges(olds, news, name, pair, kind) == [] <==> FirstsAgree(news, name, agree)
  {
    NoOldChanges(olds, news, name, pair, kind);
    NoNewChanges(news, olds, name, kind);
    hide OldChanges, NewChanges;
    forall i | 0 <= i < |olds|
      ensures Find(olds, name, name(news[i])).Some? && Find(news, name, name(olds[i])).Some?
    {
      assert name(olds[i]) == name(news[i]);
    }
    if FirstsAgree(news, name, agree) {
      forall i | 0 <= i < |olds| ensures pair(olds[i], Find(news, name, name(olds[i])).value) == [] {
      }
    } else {
      var i :| 0 <= i < |news| && !agree(news[i], Find(news, name, name(news[i])).value);
      assert pair(olds[i], Find(news, name, name(olds[i])).value) != [];
    }
  }

  // --- What two items of one name must agree on ---

  predicate ResourcesAgree(x: ResourceInfo, y: ResourceInfo) {
    x.mimeType == y.mimeType && x.name == y.name && x.title == y.title && x.description == y.description
  }

  predicate TemplatesAgree(x: TemplateInfo, y: TemplateInfo) {
    x.mimeType == y.mimeType && x.name == y.name && x.title == y.title && x.description == y.description
  }

  /** The comparison of two schemas of a tool finds nothing. */
  ghost predicate SchemasAgree(tool: string, key: string, x: Value, y: Value, direction: Direction) {
    CompareChanges(Meaning(x), Meaning(y), direction, Tool, tool, [Key(key)]) == []
  }

  ghost predicate ToolsAgree(x: ToolInfo, y: ToolInfo) {
    && x.title == y.title && x.description == y.description && OptMeaning(x.annotations) == OptMeaning(y.annotations)
    && SchemasAgree(x.name, "inputSchema", x.inputSchema, y.inputSchema, Input)
    && (x.outputSchema.Some? <==> y.outputSchema.Some?)
    && (x.outputSchema.Some? && y.outputSchema.Some? ==>
          SchemasAgree(x.name, "outputSchema", x.outputSchema.value, y.outputSchema.value, Output))
  }

  predicate ArgumentsAgree(x: Argument, y: Argument) {
    (x.required == Some(true) <==> y.required == Some(true)) && x.description == y.description
  }

  predicate PromptsAgree(x: PromptInfo, y: PromptInfo) {
    && x.title == y.title && x.description == y.description
    && (forall i :: 0 <= i < |x.arguments| ==>
          var now := Find(y.arguments, ArgumentName, x.arguments[i].name);
          now.Some? && ArgumentsAgree(x.arguments[i], now.value))
    && (forall i :: 0 <= i < |y.arguments| ==> Find(x.arguments, ArgumentName, y.arguments[i].name).Some?)
  }

  /** In every list that is compared, items of one name agree. */
  ghost predicate RepeatsAgree(s: Snapshot, skipped: seq<string>) {
    && (TOOLS in skipped || FirstsAgree(s.tools, ToolName, ToolsAgree))
    && (RESOURCES in skipped || FirstsAgree(s.resources, ResourceUri, ResourcesAgree))
    && (TEMPLATES in skipped || FirstsAgree(s.templates, TemplateUri, TemplatesAgree))
    && (PROMPTS in skipped || FirstsAgree(s.prompts, PromptName, PromptsAgree))
  }

  lemma NoToolChanges(x: ToolInfo, same: ToolInfo, y: ToolInfo)
    requires SameTool(x, same)
    ensures ToolChanges(x, y) == [] <==> ToolsAgree(same, y)
  {
    hide Meaning, CompareChanges;
  }

  lemma NoOldArgument(prompt: string, x: Argument, y: seq<Argument>)
    ensures OldArgument(prompt, x, y) == [] <==>
              var now := Find(y, ArgumentName, x.name); now.Some? && ArgumentsAgree(x, now.value)
  {
  }

  lemma {:induction false} NoOldArguments(prompt: string, x: seq<Argument>, y: seq<Argument>)
    ensures OldArguments(prompt, x, y) == [] <==>
              forall i :: 0 <= i < |x| ==>
                var now := Find(y, ArgumentName, x[i].name); now.Some? && ArgumentsAgree(x[i], now.value)
  {
    hide OldArgument, ArgumentsAgree, Find;
    if x != [] {
      var n := |x| - 1;
      NoOldArguments(prompt, x[..n], y);
      NoOldArgument(prompt, x[n], y);
      assert forall i :: 0 <= i < n ==> x[..n][i] == x[i];
    }
  }

  lemma {:induction false} NoNewArguments(prompt: string, y: seq<Argument>, x: seq<Argument>)
    ensures NewArguments(prompt, y, x) == [] <==>
              forall i :: 0 <= i < |y| ==> Find(x, ArgumentName, y[i].name).Some?
  {
    hide Find;
    if y != [] {
      var n := |y| - 1;
      NoNewArguments(prompt, y[..n], x);
      assert forall i :: 0 <= i < n ==> y[..n][i] == y[i];
    }
  }

  lemma NoPromptChanges(x: PromptInfo, same: PromptInfo, y: PromptInfo)
    requires SamePrompt(x, same)
    ensures PromptChanges(x, y) == [] <==> PromptsAgree(same, y)
  {
    hide OldArguments, NewArguments, Find, ArgumentsAgree;
    NoOldArguments(x.name, x.arguments, y.arguments);
    NoNewArguments(x.name, y.arguments, x.arguments);
  }

  lemma {:induction false} SameCaps(caps: seq<string>, others: seq<string>, severity: Severity)
    requires forall cap :: cap in caps ==> cap in others
    ensures CapChanges(caps, others, severity) == []
  {
    if caps != [] {
      SameCaps(caps[..|caps| - 1], others, severity);
    }
  }

  lemma CapsMean(x: Value, y: Value, cap: string)
    requires WellFormed(x) && WellFormed(y) && Meaning(x) == Meaning(y)
    ensures cap in Caps(x) <==> cap in Caps(y)
  {
    if x.Entries? {
      assert y.Entries?;
      MeaningKeys(x.entries);
      MeaningKeys(y.entries);
      assert cap in KeySet(x.entries) <==> cap in KeySet(y.entries);
    }
  }

  lemma SameServer(a: Snapshot, b: Snapshot)
    requires SameContent(a, b) && WellFormed(a.capabilities) && WellFormed(b.capabilities)
    ensures ServerChanges(a, b) == []
  {
    hide Caps, Meaning, WellFormed;
    forall cap ensures cap in Caps(a.capabilities) <==> cap in Caps(b.capabilities) {
      CapsMean(a.capabilities, b.capabilities, cap);
    }
    SameCaps(Caps(a.capabilities), Caps(b.capabilities), Breaking);
    SameCaps(Caps(b.capabilities), Caps(a.capabilities), Compatible);
  }

  lemma SameTools(a: Snapshot, b: Snapshot)
    requires SameContent(a, b)
    ensures AllToolChanges(a, b) == [] <==> FirstsAgree(b.tools, ToolName, ToolsAgree)
    ensures AllPromptChanges(a, b) == [] <==> FirstsAgree(b.prompts, PromptName, PromptsAgree)
  {
    hide ToolChanges, PromptChanges, ToolsAgree, PromptsAgree, ListChanges, FirstsAgree, Meaning, OptMeaning;
    forall i, y | 0 <= i < |a.tools| ensures ToolChanges(a.tools[i], y) == [] <==> ToolsAgree(b.tools[i], y) {
      NoToolChanges(a.tools[i], b.tools[i], y);
    }
    forall i, y | 0 <= i < |a.prompts| ensures PromptChanges(a.prompts[i], y) == [] <==> PromptsAgree(b.prompts[i], y) {
      NoPromptChanges(a.prompts[i], b.prompts[i], y);
    }
    SameItems(a.tools, b.tools, ToolName, ToolChanges, ToolsAgree, Tool);
    SameItems(a.prompts, b.prompts, PromptName, PromptChanges, PromptsAgree, Prompt);
  }

  lemma SameResources(a: Snapshot, b: Snapshot)
    requires SameContent(a, b)
    ensures AllResourceChanges(a, b) == [] <==> FirstsAgree(b.resources, ResourceUri, ResourcesAgree)
    ensures AllTemplateChanges(a, b) == [] <==> FirstsAgree(b.templates, TemplateUri, TemplatesAgree)
  {
    hide ListChanges, FirstsAgree, Meaning, OptMeaning;
    SameItems(a.resources, b.resources, ResourceUri, ResourceChanges, ResourcesAgree, Resource);
    SameItems(a.templates, b.templates, TemplateUri, TemplateChanges, TemplatesAgree, ResourceTemplate);
  }

  lemma SkippedFailed(a: Snapshot, b: Snapshot)
    ensures TOOLS in Skipped(a, b) <==> Failed(a, b, TOOLS)
    ensures RESOURCES in Skipped(a, b) <==> Failed(a, b, RESOURCES)
    ensures TEMPLATES in Skipped(a, b) <==> Failed(a, b, TEMPLATES)
    ensures PROMPTS in Skipped(a, b) <==> Failed(a, b, PROMPTS)
    ensures forall list :: list in Skipped(a, b) ==> list in a.listFailures || list in b.listFailures
    ensures forall list :: (list in a.listFailures || list in b.listFailures) <==> Failed(a, b, list)
  {
    assert TOOLS != RESOURCES && TOOLS != TEMPLATES && TOOLS != PROMPTS;
    assert RESOURCES != TEMPLATES && RESOURCES != PROMPTS && TEMPLATES != PROMPTS;
    hide Failed;
  }

  /** With the same content, what is found is items of one name that differ. */
  lemma OnlyRepeatsDiffer(a: Snapshot, b: Snapshot)
    requires SameContent(a, b) && ServerChanges(a, b) == []
    ensures AllChanges(a, b) == [] <==> RepeatsAgree(b, Skipped(a, b))
  {
    hide ServerChanges, AllToolChanges, AllResourceChanges, AllTemplateChanges, AllPromptChanges, Failed;
    hide SameContent, Skipped, FirstsAgree;
    SameTools(a, b);
    SameResources(a, b);
    SkippedFailed(a, b);
  }

  /** A snapshot differs from itself exactly when, in a list that was read, two items of one name
      differ. */
  lemma AgainstItself(s: Snapshot)
    ensures AllChanges(s, s) == [] <==> RepeatsAgree(s, Skipped(s, s))
  {
    hide AllChanges, RepeatsAgree, Skipped;
    SameCaps(Caps(s.capabilities), Caps(s.capabilities), Breaking);
    SameCaps(Caps(s.capabilities), Caps(s.capabilities), Compatible);
    hide CapChanges, Caps, Meaning;
    OnlyRepeatsDiffer(s, s);
  }

  /** So it does not when no name is repeated. */
  lemma UniqueNamesAgree(s: Snapshot, skipped: seq<string>)
    requires NamesAreUnique(s)
    ensures RepeatsAgree(s, skipped)
  {
    hide UniqueNames, Meaning, OptMeaning;
    forall i | 0 <= i < |s.tools| ensures Find(s.tools, ToolName, ToolName(s.tools[i])) == Some(s.tools[i]) {
      FindUnique(s.tools, ToolName, i);
    }
    forall i | 0 <= i < |s.resources|
      ensures Find(s.resources, ResourceUri, ResourceUri(s.resources[i])) == Some(s.resources[i])
    {
      FindUnique(s.resources, ResourceUri, i);
    }
    forall i | 0 <= i < |s.templates|
      ensures Find(s.templates, TemplateUri, TemplateUri(s.templates[i])) == Some(s.templates[i])
    {
      FindUnique(s.templates, TemplateUri, i);
    }
    forall i | 0 <= i < |s.prompts|
      ensures Find(s.prompts, PromptName, PromptName(s.prompts[i])) == Some(s.prompts[i])
      ensures PromptsAgree(s.prompts[i], s.prompts[i])
    {
      FindUnique(s.prompts, PromptName, i);
      UniqueArgumentsAgree(s.prompts[i]);
    }
    hide Find, PromptsAgree;
  }

  lemma UniqueArgumentsAgree(p: PromptInfo)
    requires UniqueNames(p.arguments, ArgumentName)
    ensures PromptsAgree(p, p)
  {
    hide UniqueNames;
    var x := p.arguments;
    forall i | 0 <= i < |x| ensures Find(x, ArgumentName, x[i].name) == Some(x[i]) {
      FindUnique(x, ArgumentName, i);
      assert ArgumentName(x[i]) == x[i].name;
    }
  }

  lemma PartsWellFormed(s: Snapshot)
    requires Proper(s)
    ensures WellFormed(s.capabilities)
  {
    KeysDiffer();
    BuildHas(SNAPSHOT_KEYS, SnapshotFields(s), 2);
    var built := Build(SNAPSHOT_KEYS, SnapshotFields(s));
    assert SNAPSHOT_KEYS[2] in Keys(built);
    var i :| 0 <= i < |built| && Keys(built)[i] == SNAPSHOT_KEYS[2];
    assert (built + [])[i] in built;
    assert WellFormed(built[i].1);
  }

  /** Two snapshots that do not collide have one digest exactly when all of their content is the same: what
      no comparison looks at counts too, and when they were taken does not. */
  lemma DigestsTell(hash: Value -> string, a: Snapshot, b: Snapshot)
    requires Proper(a) && Proper(b) && !Collide(hash, a, b)
    ensures Digest(hash, a) == Digest(hash, b) <==> SameContent(a, b)
  {
    hide WellFormed, SameContent, Content, Meaning, Canonicalize;
    assert WellFormed(Content(a)) && WellFormed(Content(b));
    CanonicalTellsMeaning(Content(a), Content(b));
    ContentMeans(a, b);
  }

  /** Equal digests that are no collision mean that all the comparisons could find is items of one name
      that differ. */
  lemma WhatEqualDigestsFind(hash: Value -> string, a: Snapshot, b: Snapshot)
    requires Proper(a) && Proper(b)
    requires Digest(hash, a) == Digest(hash, b) && !Collide(hash, a, b)
    ensures AllChanges(a, b) == [] <==> RepeatsAgree(b, Skipped(a, b))
  {
    hide ServerChanges, AllChanges, RepeatsAgree, Skipped;
    hide WellFormed, SameContent, Content, Meaning, Canonicalize;
    assert WellFormed(Content(a)) && WellFormed(Content(b));
    CanonicalTellsMeaning(Content(a), Content(b));
    ContentMeans(a, b);
    PartsWellFormed(a);
    PartsWellFormed(b);
    SameServer(a, b);
    OnlyRepeatsDiffer(a, b);
  }

  /** The report: nothing is compared when the digests are equal. */
  ghost function Reported(hash: Value -> string, before: Option<Snapshot>, after: Snapshot): Diff {
    if before.Some? && Digest(hash, before.value) == Digest(hash, after)
    then Diff(Unchanged, 0, 0, 0, Skipped(before.value, after))
    else Compared(before, after)
  }

  /** Compares two snapshots, leaving early when their digests are equal. Then, unless the two collide,
      the report is what every comparison would have given exactly when, in the lists compared, items of
      one name agree. */
  method DiffSnapshots(hash: Value -> string, before: Option<Snapshot>, after: Snapshot) returns (report: Diff)
    ensures report == Reported(hash, before, after)
    ensures before.None? || Digest(hash, before.value) != Digest(hash, after) ==> report == Compared(before, after)
    ensures before.Some? && Proper(before.value) && Proper(after)
            && Digest(hash, before.value) == Digest(hash, after) && !Collide(hash, before.value, after) ==>
              (report == Compared(before, after) <==> RepeatsAgree(after, Skipped(before.value, after)))
  {
    hide AllChanges, Skipped, Digest, Proper, RepeatsAgree, Collide;
    if before.None? {
      return Diff(First, 0, 0, 0, []);
    }
    var skipped := Skipped(before.value, after);
    if Digest(hash, before.value) == Digest(hash, after) {
      report := FromChanges([], skipped);
      if Proper(before.value) && Proper(after) && !Collide(hash, before.value, after) {
        WhatEqualDigestsFind(hash, before.value, after);
        ReportCounts(AllChanges(before.value, after), skipped);
      }
      return;
    }
    var out := new Report();
    RunComparisons(before.value, after, out);
    assert [] + AllChanges(before.value, after) == AllChanges(before.value, after);
    report := FromChanges(out.list, skipped);
  }

  /** Two resources of one URI and different types: the second is compared with the first, and the
      snapshot differs from itself although its digest does not. */
  lemma ARepeatedNameDiffers(s: Snapshot, x: ResourceInfo, y: ResourceInfo)
    requires s.resources == [x, y] && x.uri == y.uri && x.mimeType != y.mimeType
    requires RESOURCES !in s.listFailures
    ensures AllChanges(s, s) != []
  {
    hide AllChanges, Skipped, ServerChanges;
    AgainstItself(s);
    SkippedFailed(s, s);
    assert ResourceUri([x, y][0]) == ResourceUri([x, y][1]);
    assert Find([x, y], ResourceUri, ResourceUri([x, y][1])) == Some(x);
  }

  /** What a list that one side could not read holds does not matter to what is found. */
  lemma SkippedListsDoNotMatter(a: Snapshot, b: Snapshot, c: Snapshot, d: Snapshot)
    requires c.listFailures == a.listFailures && d.listFailures == b.listFailures
    requires ServerChanges(a, b) == ServerChanges(c, d)
    requires Failed(a, b, TOOLS) || (a.tools == c.tools && b.tools == d.tools)
    requires Failed(a, b, RESOURCES) || (a.resources == c.resources && b.resources == d.resources)
    requires Failed(a, b, TEMPLATES) || (a.templates == c.templates && b.templates == d.templates)
    requires Failed(a, b, PROMPTS) || (a.prompts == c.prompts && b.prompts == d.prompts)
    ensures Compared(Some(a), b) == Compared(Some(c), d)
  {
    assert forall list :: Failed(a, b, list) == Failed(c, d, list);
    hide ListChanges, ServerChanges, Failed, FromChanges;
  }
}
