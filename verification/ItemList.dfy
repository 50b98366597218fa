/** The rows of the middle list: what each view of a server shows, and what the filter keeps. */
module ItemList {
  import opened Json

  const MAX_HISTORY: nat := 500

  datatype Mode = Tools | Resources | Prompts | History | Server

  /** A tool, resource, template or prompt as a server declared it: the identifier a request names,
      the name to show a person, every name it has, and the rest of what was declared. */
  datatype Declared = Declared(id: string, display: string, names: seq<string>, rest: Json)

  datatype Snapshot = Snapshot(tools: seq<Declared>, resources: seq<Declared>, templates: seq<Declared>,
                               prompts: seq<Declared>, instructions: bool)

  /** A recorded call; `body` is whatever the search text is made of. */
  datatype Call = Call(id: string, name: string, failed: bool, agent: Option<string>, body: Json)

  datatype Item = Item(name: string, title: string, failed: bool, changed: bool, watched: bool,
                       text: Option<string>, agent: Option<string>)

  /** Lowercasing, and the text a filter matches a call by. */
  datatype Words = Words(lower: string -> string, searchText: Call -> string)

  /** A server, as far as its lists go. */
  datatype Entry = Entry(id: string, rev: nat, snapshot: Option<Snapshot>, changed: set<(Mode, string)>,
                         subscribed: set<string>, history: seq<Call>)

  function Fresh(id: string): Entry {
    Entry(id, 0, None, {}, {}, [])
  }

  // --- Rows ---

  function Named(id: string, title: string): Item {
    Item(id, title, false, false, false, None, None)
  }

  /** The lowercased names an item has besides its identifier, each once. */
  function Also(w: Words, id: string, names: seq<string>): seq<string> {
    if names == [] then []
    else
      var last := names[|names| - 1];
      var also := Also(w, id, names[..|names| - 1]);
      if last == id || w.lower(last) in also then also else also + [w.lower(last)]
  }

  function Join(lines: seq<string>): string {
    if lines == [] then ""
    else if |lines| == 1 then lines[0]
    else Join(lines[..|lines| - 1]) + "\n" + lines[|lines| - 1]
  }

  function Row(w: Words, e: Entry, mode: Mode, displayNames: bool, d: Declared): Item {
    var also := Also(w, d.id, d.names);
    Named(d.id, if displayNames then d.display else d.id).(
      text := if also == [] then None else Some(Join(also)),
      changed := (mode, d.id) in e.changed,
      watched := mode.Resources? && d.id in e.subscribed)
  }

  function HistoryRow(w: Words, call: Call): Item {
    Item(call.id, call.name, call.failed, false, false, Some(w.searchText(call)), call.agent)
  }

  function Sections(snapshot: Option<Snapshot>): seq<Item> {
    (if snapshot.None? then []
     else
       [Named("server", "Server info"), Named("capabilities", "Capabilities")]
       + (if snapshot.value.instructions then [Named("instructions", "Instructions")] else [])
       + [Named("lists", "Lists"), Named("snapshots", "Snapshots"), Named("roots", "Roots")])
    + [Named("settings", "Settings")]
  }

  function ListOf(snapshot: Snapshot, mode: Mode): seq<Declared> {
    match mode
    case Tools => snapshot.tools
    case Resources => snapshot.resources + snapshot.templates
    case Prompts => snapshot.prompts
    case _ => []
  }

  function HistoryRows(w: Words, history: seq<Call>): seq<Item> {
    seq(|history|, i requires 0 <= i < |history| => HistoryRow(w, history[i]))
  }

  function Rows(w: Words, e: Entry, mode: Mode, displayNames: bool, list: seq<Declared>): seq<Item> {
    seq(|list|, i requires 0 <= i < |list| => Row(w, e, mode, displayNames, list[i]))
  }

  /** Every row, before the filter, built afresh. */
  function AllItems(w: Words, server: Option<Entry>, mode: Mode, displayNames: bool): seq<Item> {
    if server.None? then []
    else match mode
      case History => HistoryRows(w, server.value.history)
      case Server => Sections(server.value.snapshot)
      case _ =>
        if server.value.snapshot.None? then []
        else Rows(w, server.value, mode, displayNames, ListOf(server.value.snapshot.value, mode))
  }

  predicate HasAt(text: string, i: nat, needle: string) {
    i + |needle| <= |text| && text[i..i + |needle|] == needle
  }

  predicate Contains(text: string, needle: string) {
    exists i: nat | i <= |text| :: HasAt(text, i, needle)
  }

  predicate Matches(w: Words, item: Item, needle: string) {
    || needle == ""
    || Contains(w.lower(item.title), needle)
    || Contains(w.lower(item.name), needle)
    || (item.text.Some? && Contains(item.text.value, needle))
  }

  function Kept(w: Words, items: seq<Item>, needle: string): (kept: seq<Item>)
    ensures |kept| <= |items|
  {
    if items == [] then []
    else Kept(w, items[..|items| - 1], needle)
         + if Matches(w, items[|items| - 1], needle) then [items[|items| - 1]] else []
  }

  // --- Changes to a server that its rows depend on ---

  function Seen(e: Entry, mode: Mode, name: string): Entry {
    if (mode, name) in e.changed then e.(changed := e.changed - {(mode, name)}, rev := e.rev + 1) else e
  }

  function Subscribed(e: Entry, uri: string, on: bool): Entry {
    if (uri in e.subscribed) == on then e
    else e.(subscribed := if on then e.subscribed + {uri} else e.subscribed - {uri}, rev := e.rev + 1)
  }

  function WithSnapshot(e: Entry, snapshot: Option<Snapshot>): Entry {
    e.(snapshot := snapshot, rev := e.rev + 1)
  }

  function Cut(calls: seq<Call>): seq<Call> {
    if |calls| <= MAX_HISTORY then calls else calls[..MAX_HISTORY]
  }

  predicate Lists(history: seq<Call>, id: string) {
    exists i :: 0 <= i < |history| && history[i].id == id
  }

  function Pushed(e: Entry, call: Call): Entry {
    if Lists(e.history, call.id) then e else e.(history := Cut([call] + e.history), rev := e.rev + 1)
  }

  function WithHistory(e: Entry, calls: seq<Call>): Entry {
    e.(history := calls, rev := e.rev + 1)
  }

  datatype Kind = ToolList | ResourceList | PromptList

  function ModeOf(kind: Kind): Mode {
    match kind case ToolList => Tools case ResourceList => Resources case PromptList => Prompts
  }

  /** The names of the items of `now` that are not in `current` just as they are. */
  function Altered(current: seq<Declared>, now: seq<Declared>): set<string> {
    set d | d in now && d !in current :: d.id
  }

  function Marks(mode: Mode, names: set<string>): set<(Mode, string)> {
    set name | name in names :: (mode, name)
  }

  /** What one relisted kind does: its lists are moved out of `now`. */
  function RelistedOne(current: Snapshot, now: Snapshot, kind: Kind): (Snapshot, Snapshot, set<(Mode, string)>) {
    match kind
    case ToolList =>
      (current.(tools := now.tools), now.(tools := []), Marks(Tools, Altered(current.tools, now.tools)))
    case ResourceList =>
      (current.(resources := now.resources, templates := now.templates), now.(resources := [], templates := []),
       Marks(Resources, Altered(current.resources, now.resources))
       + Marks(Resources, Altered(current.templates, now.templates)))
    case PromptList =>
      (current.(prompts := now.prompts), now.(prompts := []), Marks(Prompts, Altered(current.prompts, now.prompts)))
  }

  function RelistedAll(current: Snapshot, now: Snapshot, kinds: seq<Kind>): (Snapshot, set<(Mode, string)>)
    decreases |kinds|
  {
    if kinds == [] then (current, {})
    else
      var one := RelistedOne(current, now, kinds[0]);
      var rest := RelistedAll(one.0, one.1, kinds[1..]);
      (rest.0, one.2 + rest.1)
  }

  function Relisted(e: Entry, now: Snapshot, kinds: seq<Kind>): Entry {
    if e.snapshot.None? then e
    else
      var all := RelistedAll(e.snapshot.value, now, kinds);
      e.(snapshot := Some(all.0), changed := e.changed + all.1, rev := e.rev + 1)
  }

  /** What a connect does to the marks of its server: it leaves the revision as it is. */
  function Cleared(e: Entry): Entry {
    e.(changed := {}, subscribed := {})
  }

  datatype How =
    | BySeeing(mode: Mode, name: string)
    | BySubscribing(uri: string, on: bool)
    | ByRelisting(now: Snapshot, kinds: seq<Kind>)
    | BySnapshot(snapshot: Option<Snapshot>)
    | ByCall(call: Call)
    | ByHistory(calls: seq<Call>)

  function Changed(e: Entry, how: How): Entry {
    match how
    case BySeeing(mode, name) => Seen(e, mode, name)
    case BySubscribing(uri, on) => Subscribed(e, uri, on)
    case ByRelisting(now, kinds) => Relisted(e, now, kinds)
    case BySnapshot(snapshot) => WithSnapshot(e, snapshot)
    case ByCall(call) => Pushed(e, call)
    case ByHistory(calls) => WithHistory(e, calls)
  }

  // --- Facts about the rows ---

  /** The names of the items of one kind that are new or not as they were; a resource is compared with
      resources, and a template with templates. */
  function AlteredOf(current: Snapshot, now: Snapshot, kind: Kind): set<string> {
    match kind
    case ToolList => Altered(current.tools, now.tools)
    case ResourceList => Altered(current.resources, now.resources) + Altered(current.templates, now.templates)
    case PromptList => Altered(current.prompts, now.prompts)
  }

  /** A relist of distinct kinds replaces exactly the lists of those kinds, and marks exactly the
      items that are new or not as they were. */
  lemma {:induction false} RelistReplacesItsKinds(current: Snapshot, now: Snapshot, kinds: seq<Kind>, kind: Kind)
    requires forall i, j :: 0 <= i < j < |kinds| ==> kinds[i] != kinds[j]
    ensures var (after, marks) := RelistedAll(current, now, kinds);
            && ListOf(after, ModeOf(kind)) == ListOf(if kind in kinds then now else current, ModeOf(kind))
            && after.instructions == current.instructions
            && (forall mark :: mark in marks ==> exists k :: k in kinds && mark.0 == ModeOf(k))
            && (kind in kinds ==>
                  forall name :: (ModeOf(kind), name) in marks <==> name in AlteredOf(current, now, kind))
    decreases |kinds|
  {
    if kinds != [] {
      var one := RelistedOne(current, now, kinds[0]);
      RelistReplacesItsKinds(one.0, one.1, kinds[1..], kind);
      var (after, marks) := RelistedAll(one.0, one.1, kinds[1..]);
      assert forall k :: k in kinds <==> k == kinds[0] || k in kinds[1..];
      forall mark | mark in one.2 + marks
        ensures exists k :: k in kinds && mark.0 == ModeOf(k)
      {
        if mark in one.2 {
          assert kinds[0] in kinds && mark.0 == ModeOf(kinds[0]);
        }
      }
    }
  }

  /** What a row is found by besides its title and identifier: its other names in lower case, each once. */
  lemma {:induction false} AlsoAreTheOtherNames(w: Words, id: string, names: seq<string>, line: string)
    ensures line in Also(w, id, names) <==> exists i :: 0 <= i < |names| && names[i] != id && w.lower(names[i]) == line
    ensures forall i, j :: 0 <= i < j < |Also(w, id, names)| ==> Also(w, id, names)[i] != Also(w, id, names)[j]
  {
    if names != [] {
      var n := |names| - 1;
      AlsoAreTheOtherNames(w, id, names[..n], line);
      AlsoAreTheOtherNames(w, id, names[..n], w.lower(names[n]));
      assert forall i :: 0 <= i < n ==> names[..n][i] == names[i];
    }
  }

  /** The sections of a server: its settings always, its instructions where it gave some, and the others once
      it was read. */
  lemma WhatSectionsThereAre(snapshot: Option<Snapshot>, name: string)
    ensures (exists i :: 0 <= i < |Sections(snapshot)| && Sections(snapshot)[i].name == name) <==>
              || name == "settings"
              || (snapshot.Some? && name in {"server", "capabilities", "lists", "snapshots", "roots"})
              || (snapshot.Some? && snapshot.value.instructions && name == "instructions")
  {
    if snapshot.Some? {
      var s := Sections(snapshot);
      assert s[0].name == "server" && s[1].name == "capabilities";
      if snapshot.value.instructions {
        assert s[2].name == "instructions" && s[3].name == "lists" && s[4].name == "snapshots";
        assert s[5].name == "roots" && s[6].name == "settings" && |s| == 7;
      } else {
        assert s[2].name == "lists" && s[3].name == "snapshots" && s[4].name == "roots";
        assert s[5].name == "settings" && |s| == 6;
      }
    } else {
      assert Sections(snapshot)[0].name == "settings";
    }
  }

  /** The rows of a list: one for every declared item, templates after resources, each with the identifier a
      request names, the title that was asked for, and its marks. */
  lemma WhatRowsShow(w: Words, e: Entry, mode: Mode, displayNames: bool, i: nat)
    requires e.snapshot.Some? && (mode.Tools? || mode.Resources? || mode.Prompts?)
    requires var s := e.snapshot.value;
             i < if mode.Tools? then |s.tools| else if mode.Prompts? then |s.prompts| else |s.resources| + |s.templates|
    ensures var (s, rows) := (e.snapshot.value, AllItems(w, Some(e), mode, displayNames));
            && |rows| == (if mode.Tools? then |s.tools| else if mode.Prompts? then |s.prompts|
                          else |s.resources| + |s.templates|)
            && var d := if mode.Tools? then s.tools[i] else if mode.Prompts? then s.prompts[i]
                        else if i < |s.resources| then s.resources[i] else s.templates[i - |s.resources|];
               && rows[i].name == d.id && rows[i].title == (if displayNames then d.display else d.id)
               && (rows[i].changed <==> (mode, d.id) in e.changed)
               && (rows[i].watched <==> mode.Resources? && d.id in e.subscribed)
               && !rows[i].failed && rows[i].agent == None
  {
    hide Also, Join;
  }

  /** The rows of the history: one for every call, in order. */
  lemma WhatHistoryShows(w: Words, e: Entry, displayNames: bool, i: nat)
    requires i < |e.history|
    ensures var (call, rows) := (e.history[i], AllItems(w, Some(e), History, displayNames));
            && |rows| == |e.history|
            && rows[i].name == call.id && rows[i].title == call.name && rows[i].failed == call.failed
            && rows[i].agent == call.agent && rows[i].text == Some(w.searchText(call))
            && !rows[i].changed && !rows[i].watched
  {
  }

  /** The filter keeps the rows that match, and their order. */
  lemma {:induction false} KeptAreThoseThatMatch(w: Words, items: seq<Item>, needle: string, i: nat)
    requires i < |items| && Matches(w, items[i], needle)
    ensures var k := |Kept(w, items[..i], needle)|;
            k < |Kept(w, items, needle)| && Kept(w, items, needle)[k] == items[i]
  {
    hide Matches;
    var n := |items| - 1;
    if i < n {
      assert items[..n][..i] == items[..i];
      KeptAreThoseThatMatch(w, items[..n], needle, i);
    }
  }

  lemma {:induction false} KeptAreItems(w: Words, items: seq<Item>, needle: string, k: nat)
    requires k < |Kept(w, items, needle)|
    ensures Kept(w, items, needle)[k] in items && Matches(w, Kept(w, items, needle)[k], needle)
  {
    hide Matches;
    var n := |items| - 1;
    if k < |Kept(w, items[..n], needle)| {
      KeptAreItems(w, items[..n], needle, k);
    }
  }

  /** What each change to a server leaves of it: of the marks, only the one seen goes; of the subscriptions,
      only that of the URI changes; a call recorded is the newest, once, and the oldest beyond the most that
      are listed go. */
  lemma WhatChangesLeave(e: Entry, how: How)
    ensures var f := Changed(e, how);
            && f.id == e.id
            && (how.BySeeing? ==> f == e.(changed := f.changed, rev := f.rev))
            && (how.BySeeing? ==>
                  forall mark :: mark in f.changed <==> mark in e.changed && mark != (how.mode, how.name))
            && (how.BySubscribing? ==> f == e.(subscribed := f.subscribed, rev := f.rev))
            && (how.BySubscribing? ==>
                  forall uri :: uri in f.subscribed <==> if uri == how.uri then how.on else uri in e.subscribed)
            && (how.BySnapshot? ==> f == e.(snapshot := how.snapshot, rev := f.rev))
            && (how.ByHistory? ==> f == e.(history := how.calls, rev := f.rev))
            && (how.ByCall? ==> f == e.(history := f.history, rev := f.rev))
            && (how.ByCall? && Lists(e.history, how.call.id) ==> f.history == e.history)
            && (how.ByCall? && !Lists(e.history, how.call.id) && |e.history| < MAX_HISTORY ==>
                  f.history == [how.call] + e.history)
            && (how.ByCall? && !Lists(e.history, how.call.id) && |e.history| >= MAX_HISTORY ==>
                  f.history == [how.call] + e.history[..MAX_HISTORY - 1])
            && (how.ByRelisting? ==> f.history == e.history && f.subscribed == e.subscribed && e.changed <= f.changed)
  {
    hide RelistedAll;
    if how.ByCall? && |e.history| >= MAX_HISTORY {
      assert ([how.call] + e.history)[..MAX_HISTORY] == [how.call] + e.history[..MAX_HISTORY - 1];
    }
  }

  lemma ContainsInParts(text: string, before: string, after: string, needle: string)
    requires Contains(text, needle)
    ensures Contains(before + text + after, needle)
  {
    var i: nat :| i <= |text| && HasAt(text, i, needle);
    assert HasAt(before + text + after, |before| + i, needle);
  }

  lemma {:induction false} JoinContains(lines: seq<string>, line: string, needle: string)
    requires line in lines && Contains(line, needle)
    ensures Contains(Join(lines), needle)
  {
    var n := |lines| - 1;
    if n == 0 {
    } else if line == lines[n] {
      ContainsInParts(line, Join(lines[..n]) + "\n", "", needle);
      assert Join(lines[..n]) + "\n" + line + "" == Join(lines);
    } else {
      assert line in lines[..n];
      JoinContains(lines[..n], line, needle);
      ContainsInParts(Join(lines[..n]), "", "\n" + lines[n], needle);
      assert "" + Join(lines[..n]) + ("\n" + lines[n]) == Join(lines);
    }
  }

  lemma {:induction false} AlsoHasNames(w: Words, id: string, names: seq<string>, name: string)
    requires name in names && name != id
    ensures w.lower(name) in Also(w, id, names)
  {
    var n := |names| - 1;
    if name != names[n] {
      assert name in names[..n];
      AlsoHasNames(w, id, names[..n], name);
    }
  }

  lemma RowMatchesEitherWay(w: Words, e: Entry, mode: Mode, d: Declared, needle: string)
    requires d.display == d.id || d.display in d.names
    ensures Row(w, e, mode, true, d).name == Row(w, e, mode, false, d).name
    ensures Matches(w, Row(w, e, mode, true, d), needle) <==> Matches(w, Row(w, e, mode, false, d), needle)
  {
    if d.display != d.id && Contains(w.lower(d.display), needle) {
      AlsoHasNames(w, d.id, d.names, d.display);
      JoinContains(Also(w, d.id, d.names), w.lower(d.display), needle);
    }
  }

  function Names(items: seq<Item>): seq<string> {
    seq(|items|, i requires 0 <= i < |items| => items[i].name)
  }

  lemma NamesOfKept(w: Words, items: seq<Item>, needle: string)
    requires items != []
    ensures var n := |items| - 1;
            Names(Kept(w, items, needle))
            == Names(Kept(w, items[..n], needle)) + if Matches(w, items[n], needle) then [items[n].name] else []
  {
    hide Matches;
  }

  lemma {:induction false} KeptEitherWay(w: Words, e: Entry, mode: Mode, list: seq<Declared>, needle: string)
    requires forall d :: d in list ==> d.display == d.id || d.display in d.names
    ensures Names(Kept(w, Rows(w, e, mode, true, list), needle))
          == Names(Kept(w, Rows(w, e, mode, false, list), needle))
  {
    hide Row, Matches;
    if list != [] {
      var n := |list| - 1;
      KeptEitherWay(w, e, mode, list[..n], needle);
      RowMatchesEitherWay(w, e, mode, list[n], needle);
      var (x, y) := (Rows(w, e, mode, true, list), Rows(w, e, mode, false, list));
      assert x[..n] == Rows(w, e, mode, true, list[..n]) && y[..n] == Rows(w, e, mode, false, list[..n]);
      NamesOfKept(w, x, needle);
      NamesOfKept(w, y, needle);
    }
  }

  /** Every item shows its identifier or one of its names. */
  predicate WellNamed(snapshot: Snapshot) {
    forall mode: Mode, d :: d in ListOf(snapshot, mode) ==> d.display == d.id || d.display in d.names
  }

  /** A search finds the same rows, in the same order, whether lists show identifiers or display
      names. */
  lemma SameRowsEitherWay(w: Words, server: Option<Entry>, mode: Mode, needle: string)
    requires server.Some? && server.value.snapshot.Some? ==> WellNamed(server.value.snapshot.value)
    ensures Names(Kept(w, AllItems(w, server, mode, true), needle))
          == Names(Kept(w, AllItems(w, server, mode, false), needle))
  {
    if server.Some? && server.value.snapshot.Some? {
      KeptEitherWay(w, server.value, mode, ListOf(server.value.snapshot.value, mode), needle);
    }
  }
}
