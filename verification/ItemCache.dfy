/** The rows of the middle list are built again only when a revision counter, or what is shown of
    which server, says they may differ. */
module ItemCache {
  import opened Json
  import opened ItemList

  datatype View = Window(servers: seq<Entry>, selected: Option<nat>, mode: Mode, filter: string, displayNames: bool)

  function ServerOf(v: View): Option<Entry> {
    if v.selected.Some? && v.selected.value < |v.servers| then Some(v.servers[v.selected.value]) else None
  }

  // --- Without a cache ---

  datatype Shown = Shown(rows: seq<Item>, total: nat)

  function Built(w: Words, server: Option<Entry>, mode: Mode, displayNames: bool, filter: string): Shown {
    var all := AllItems(w, server, mode, displayNames);
    Shown(Kept(w, all, w.lower(filter)), |all|)
  }

  function Read(w: Words, v: View): Shown {
    Built(w, ServerOf(v), v.mode, v.displayNames, v.filter)
  }

  datatype Op =
    | Reading
    | Selecting(ix: nat)
    | Switching(mode: Mode)
    | Filtering(text: string)
    | Naming(on: bool)
    | Changing(ix: nat, how: How)
    | Adding(id: string)
    | Deleting(id: string)

  function Put(v: View, ix: nat, e: Entry): View
    requires ix < |v.servers|
  {
    v.(servers := v.servers[ix := e])
  }

  /** Where server `id` is, or the number of servers. */
  function Find(servers: seq<Entry>, id: string): (ix: nat)
    ensures ix <= |servers|
    ensures ix < |servers| ==> servers[ix].id == id
    ensures forall i :: 0 <= i < ix ==> servers[i].id != id
  {
    if servers == [] || servers[0].id == id then 0 else 1 + Find(servers[1..], id)
  }

  function WithoutServer(v: View, ix: nat): View
    requires ix < |v.servers|
  {
    var servers := v.servers[..ix] + v.servers[ix + 1..];
    v.(servers := servers, selected :=
      match v.selected
      case None => None
      case Some(s) =>
        if s == ix then (if servers == [] then None else Some(if ix < |servers| then ix else |servers| - 1))
        else if s > ix then Some(s - 1) else Some(s))
  }

  function After(v: View, op: Op): View {
    match op
    case Reading => v
    case Selecting(ix) => if ix < |v.servers| then v.(selected := Some(ix), filter := "") else v
    case Switching(mode) => if mode != v.mode then v.(mode := mode, filter := "") else v
    case Filtering(text) => v.(filter := text)
    case Naming(on) => v.(displayNames := on)
    case Changing(ix, how) => if ix < |v.servers| then Put(v, ix, Changed(v.servers[ix], how)) else v
    case Adding(id) => v.(servers := v.servers + [Fresh(id)])
    case Deleting(id) =>
      var ix := Find(v.servers, id);
      if ix < |v.servers| then WithoutServer(v, ix) else v
  }

  // --- Which server is shown ---

  /** The servers without `id`, in order. */
  function Others(servers: seq<Entry>, id: string): seq<Entry> {
    if servers == [] then []
    else (if servers[0].id == id then [] else [servers[0]]) + Others(servers[1..], id)
  }

  lemma {:induction false} OthersAre(servers: seq<Entry>, id: string, ix: nat)
    requires ix < |servers| && servers[ix].id == id
    requires forall i :: 0 <= i < |servers| && i != ix ==> servers[i].id != id
    ensures Others(servers, id) == servers[..ix] + servers[ix + 1..]
  {
    var rest := servers[1..];
    if ix == 0 {
      OthersStay(rest, id);
      assert servers[..0] + servers[1..] == rest;
    } else {
      assert forall i :: 0 <= i < |rest| ==> rest[i] == servers[i + 1];
      OthersAre(rest, id, ix - 1);
      hide Others;
      assert servers[..ix] == [servers[0]] + rest[..ix - 1] && servers[ix + 1..] == rest[ix..];
    }
  }

  lemma {:induction false} OthersStay(servers: seq<Entry>, id: string)
    requires forall i :: 0 <= i < |servers| ==> servers[i].id != id
    ensures Others(servers, id) == servers
  {
    if servers != [] {
      OthersStay(servers[1..], id);
    }
  }

  /** A deletion takes one server out and leaves the others in order. The server shown stays shown, unless
      it is that one: then the one after it is, or else the one before. */
  lemma DeletingKeepsTheSelection(v: View, id: string)
    requires forall i, j :: 0 <= i < j < |v.servers| ==> v.servers[i].id != v.servers[j].id
    ensures var (w, was) := (After(v, Deleting(id)), ServerOf(v));
            && w.servers == Others(v.servers, id)
            && w.mode == v.mode && w.filter == v.filter && w.displayNames == v.displayNames
            && (was.None? ==> ServerOf(w) == None)
            && (was.Some? && was.value.id != id ==> ServerOf(w) == was)
            && (was.Some? && was.value.id == id ==>
                  var s := v.selected.value;
                  ServerOf(w) == if s + 1 < |v.servers| then Some(v.servers[s + 1])
                                 else if s > 0 then Some(v.servers[s - 1]) else None)
  {
    var ix := Find(v.servers, id);
    if ix == |v.servers| {
      OthersStay(v.servers, id);
    } else {
      OthersAre(v.servers, id, ix);
      RemovingKeepsTheSelection(v, ix);
      assert forall i :: 0 <= i < |v.servers| && i != ix ==> v.servers[i].id != id;
    }
    hide WithoutServer, Others, Find;
  }

  lemma RemovingKeepsTheSelection(v: View, ix: nat)
    requires ix < |v.servers|
    ensures var (w, was) := (WithoutServer(v, ix), ServerOf(v));
            && w == v.(servers := v.servers[..ix] + v.servers[ix + 1..], selected := w.selected)
            && (was.None? ==> ServerOf(w) == None)
            && (was.Some? && v.selected.value != ix ==> ServerOf(w) == was)
            && (was.Some? && v.selected.value == ix ==>
                  ServerOf(w) == if ix + 1 < |v.servers| then Some(v.servers[ix + 1])
                                 else if ix > 0 then Some(v.servers[ix - 1]) else None)
  {
    var left := v.servers[..ix] + v.servers[ix + 1..];
    assert forall i :: 0 <= i < ix ==> left[i] == v.servers[i];
    assert forall i :: ix <= i < |left| ==> left[i] == v.servers[i + 1];
  }

  /** What the other operations show: another server or mode starts without a filter, and nothing else
      changes which server is shown, or how. */
  lemma WhatOpsShow(v: View, op: Op)
    ensures var w := After(v, op);
            && (op.Selecting? && op.ix < |v.servers| ==>
                  ServerOf(w) == Some(v.servers[op.ix]) && w.filter == "" && w.mode == v.mode)
            && (op.Switching? ==> w.mode == op.mode && w.filter == (if op.mode == v.mode then v.filter else ""))
            && (op.Filtering? ==> w == v.(filter := op.text))
            && (op.Naming? ==> w == v.(displayNames := op.on))
            && (op.Adding? ==> w.servers == v.servers + [Fresh(op.id)] && w.selected == v.selected)
            && (op.Changing? ==> w.selected == v.selected && |w.servers| == |v.servers|)
            && (op.Changing? ==> forall i :: 0 <= i < |v.servers| && i != op.ix ==> w.servers[i] == v.servers[i])
            && (!op.Selecting? && !op.Deleting? ==> w.selected == v.selected)
            && (!op.Selecting? && !op.Switching? && !op.Filtering? ==> w.filter == v.filter && w.mode == v.mode)
            && (!op.Naming? ==> w.displayNames == v.displayNames)
  {
    hide Changed;
  }

  /** What a run of operations reads, every read building its rows. */
  function Reads(w: Words, v: View, ops: seq<Op>): seq<Shown>
    decreases |ops|
  {
    if ops == [] then []
    else (if ops[0].Reading? then [Read(w, v)] else []) + Reads(w, After(v, ops[0]), ops[1..])
  }

  // --- With one ---

  datatype Key = Key(server: Option<string>, rev: nat, mode: Mode, filter: string, displayNames: bool)

  datatype Cache = Cache(key: Option<Key>, shown: Shown)

  function KeyOf(v: View): Key {
    var server := ServerOf(v);
    Key(if server.Some? then Some(server.value.id) else None, if server.Some? then server.value.rev else 0,
        v.mode, v.filter, v.displayNames)
  }

  /** The cached rows are those of the revision they were built at, while that is the current one. */
  predicate Agrees(w: Words, e: Entry, k: Key, shown: Shown) {
    && k.rev <= e.rev
    && (k.rev == e.rev ==> shown == Built(w, Some(e), k.mode, k.displayNames, k.filter))
  }

  predicate CacheOk(w: Words, servers: seq<Entry>, cache: Cache) {
    cache.key.Some? ==>
      var k := cache.key.value;
      if k.server.None? then cache.shown == Shown([], 0)
      else forall i :: 0 <= i < |servers| && servers[i].id == k.server.value ==> Agrees(w, servers[i], k, cache.shown)
  }

  predicate Distinct(servers: seq<Entry>) {
    forall i, j :: 0 <= i < j < |servers| ==> servers[i].id != servers[j].id
  }

  /** Every server, and the cached one, has an id handed out before. */
  predicate Known(servers: seq<Entry>, cache: Cache, used: set<string>) {
    && (forall i :: 0 <= i < |servers| ==> servers[i].id in used)
    && (cache.key.Some? && cache.key.value.server.Some? ==> cache.key.value.server.value in used)
  }

  /** A call keeps what it was recorded with: its id tells it all. */
  ghost predicate Recorded(byId: string -> Call, calls: seq<Call>) {
    forall i :: 0 <= i < |calls| ==> calls[i] == byId(calls[i].id)
  }

  ghost predicate AllRecorded(byId: string -> Call, servers: seq<Entry>) {
    forall i :: 0 <= i < |servers| ==> Recorded(byId, servers[i].history)
  }

  ghost predicate TextsOk(w: Words, byId: string -> Call, texts: map<string, string>) {
    forall id :: id in texts ==> texts[id] == w.searchText(byId(id))
  }

  /** What a run may do: new servers have new ids, and calls do not change. */
  ghost predicate Allowed(byId: string -> Call, used: set<string>, op: Op) {
    match op
    case Adding(id) => id !in used
    case Changing(_, ByCall(call)) => Recorded(byId, [call])
    case Changing(_, ByHistory(calls)) => Recorded(byId, calls)
    case _ => true
  }

  function UsedAfter(used: set<string>, op: Op): set<string> {
    if op.Adding? then used + {op.id} else used
  }

  ghost predicate AllAllowed(byId: string -> Call, used: set<string>, ops: seq<Op>)
    decreases |ops|
  {
    ops == [] || (Allowed(byId, used, ops[0]) && AllAllowed(byId, UsedAfter(used, ops[0]), ops[1..]))
  }

  /** Everything the rows of a server depend on. */
  predicate SameRows(e: Entry, f: Entry) {
    && e.id == f.id && e.snapshot == f.snapshot && e.changed == f.changed
    && e.subscribed == f.subscribed && e.history == f.history
  }

  /** The revision tells whether the rows may differ. */
  predicate Advances(e: Entry, f: Entry) {
    f.id == e.id && e.rev <= f.rev && (f.rev == e.rev ==> SameRows(e, f))
  }

  lemma SameRowsSameItems(w: Words, e: Entry, f: Entry, mode: Mode, displayNames: bool, filter: string)
    requires SameRows(e, f)
    ensures Built(w, Some(e), mode, displayNames, filter) == Built(w, Some(f), mode, displayNames, filter)
  {
    if e.snapshot.Some? {
      var list := ListOf(e.snapshot.value, mode);
      assert Rows(w, e, mode, displayNames, list) == Rows(w, f, mode, displayNames, list);
    }
  }

  /** Every change to what a server's rows are made of moves its revision on. */
  lemma ChangesAdvance(e: Entry, how: How)
    ensures Advances(e, Changed(e, how))
  {
    hide Altered, RelistedAll, Cut;
  }

  lemma ChangesKeepRecords(byId: string -> Call, e: Entry, ix: nat, how: How)
    requires Recorded(byId, e.history) && Allowed(byId, {}, Changing(ix, how))
    ensures Recorded(byId, Changed(e, how).history)
  {
    hide Altered, RelistedAll;
  }

  lemma AdvancingAgrees(w: Words, e: Entry, f: Entry, k: Key, shown: Shown)
    requires Agrees(w, e, k, shown) && Advances(e, f)
    ensures Agrees(w, f, k, shown)
  {
    hide Built;
    if f.rev == e.rev {
      SameRowsSameItems(w, e, f, k.mode, k.displayNames, k.filter);
    }
  }

  ghost predicate Good(w: Words, byId: string -> Call, v: View, cache: Cache, used: set<string>) {
    && Distinct(v.servers)
    && Known(v.servers, cache, used)
    && CacheOk(w, v.servers, cache)
    && AllRecorded(byId, v.servers)
  }

  lemma ChangingKeepsTheCacheGood(w: Words, byId: string -> Call, v: View, cache: Cache, used: set<string>, ix: nat,
                                  how: How)
    requires Good(w, byId, v, cache, used) && Allowed(byId, used, Changing(ix, how)) && ix < |v.servers|
    ensures Good(w, byId, Put(v, ix, Changed(v.servers[ix], how)), cache, used)
  {
    hide Agrees, Changed;
    var (e, f) := (v.servers[ix], Changed(v.servers[ix], how));
    ChangesAdvance(e, how);
    ChangesKeepRecords(byId, e, ix, how);
    if cache.key.Some? && cache.key.value.server == Some(e.id) {
      AdvancingAgrees(w, e, f, cache.key.value, cache.shown);
    }
  }

  lemma DeletingKeepsTheCacheGood(w: Words, byId: string -> Call, v: View, cache: Cache, used: set<string>, ix: nat)
    requires Good(w, byId, v, cache, used) && ix < |v.servers|
    ensures Good(w, byId, WithoutServer(v, ix), cache, used)
  {
    hide Agrees, Recorded;
    var left := v.servers[..ix] + v.servers[ix + 1..];
    assert forall i :: 0 <= i < ix ==> left[i] == v.servers[i];
    assert forall i :: ix <= i < |left| ==> left[i] == v.servers[i + 1];
  }

  /** No operation can make the cached rows wrong without making their key old. */
  lemma OpsKeepTheCacheGood(w: Words, byId: string -> Call, v: View, cache: Cache, used: set<string>, op: Op)
    requires Good(w, byId, v, cache, used) && Allowed(byId, used, op)
    ensures Good(w, byId, After(v, op), cache, UsedAfter(used, op))
  {
    match op {
      case Changing(ix, how) =>
        if ix < |v.servers| {
          ChangingKeepsTheCacheGood(w, byId, v, cache, used, ix, how);
        }
        hide Good, Put, Changed;
      case Adding(id) => hide Agrees, Recorded;
      case Deleting(id) =>
        if Find(v.servers, id) < |v.servers| {
          DeletingKeepsTheCacheGood(w, byId, v, cache, used, Find(v.servers, id));
        }
        hide Good, WithoutServer;
      case _ => hide Agrees, Recorded;
    }
  }

  /** A key that is still the current one means the cached rows are what building them would give. */
  lemma CurrentKeyIsRight(w: Words, v: View, cache: Cache)
    requires CacheOk(w, v.servers, cache) && cache.key == Some(KeyOf(v))
    ensures cache.shown == Read(w, v)
  {
  }

  // --- What a connect does: it clears the marks and leaves the revision ---

  function Plain(item: Item): Item {
    item.(changed := false, watched := false)
  }

  function Unmarked(items: seq<Item>): seq<Item> {
    seq(|items|, i requires 0 <= i < |items| => Plain(items[i]))
  }

  predicate Marked(items: seq<Item>) {
    exists i :: 0 <= i < |items| && (items[i].changed || items[i].watched)
  }

  function Connected(v: View, ix: nat): View
    requires ix < |v.servers|
  {
    Put(v, ix, Cleared(v.servers[ix]))
  }

  /** The cached rows are those of server `ix` at its revision, and one of them is marked. */
  predicate WouldBeStale(v: View, cache: Cache, ix: nat)
    requires ix < |v.servers|
  {
    && cache.key.Some? && cache.key.value.server == Some(v.servers[ix].id)
    && cache.key.value.rev == v.servers[ix].rev && Marked(cache.shown.rows)
  }

  lemma PlainMatches(w: Words, item: Item, needle: string)
    ensures Matches(w, Plain(item), needle) == Matches(w, item, needle)
  {
  }

  lemma {:induction false} KeptUnmarked(w: Words, items: seq<Item>, needle: string)
    ensures Kept(w, Unmarked(items), needle) == Unmarked(Kept(w, items, needle))
  {
    hide Matches;
    if items != [] {
      var n := |items| - 1;
      KeptUnmarked(w, items[..n], needle);
      assert Unmarked(items)[..n] == Unmarked(items[..n]);
      PlainMatches(w, items[n], needle);
    }
  }

  lemma ItemsOfCleared(w: Words, e: Entry, mode: Mode, displayNames: bool)
    ensures AllItems(w, Some(Cleared(e)), mode, displayNames) == Unmarked(AllItems(w, Some(e), mode, displayNames))
  {
    if mode.History? {
      assert HistoryRows(w, e.history) == Unmarked(HistoryRows(w, e.history));
    } else if mode.Server? {
      assert Sections(e.snapshot) == Unmarked(Sections(e.snapshot));
    }
  }

  lemma BuiltOfCleared(w: Words, e: Entry, mode: Mode, displayNames: bool, filter: string)
    ensures var built := Built(w, Some(e), mode, displayNames, filter);
            Built(w, Some(Cleared(e)), mode, displayNames, filter) == Shown(Unmarked(built.rows), built.total)
  {
    hide AllItems, Cleared;
    ItemsOfCleared(w, e, mode, displayNames);
    KeptUnmarked(w, AllItems(w, Some(e), mode, displayNames), w.lower(filter));
  }

  lemma UnmarkedIsSame(items: seq<Item>)
    ensures Unmarked(items) == items <==> !Marked(items)
  {
    if Unmarked(items) == items {
      forall i | 0 <= i < |items| ensures !items[i].changed && !items[i].watched {
        assert Unmarked(items)[i] == items[i];
      }
    }
  }

  /** A connect leaves the cached rows right exactly when none of those of its server is marked. */
  lemma ConnectKeepsTheCacheGood(w: Words, byId: string -> Call, v: View, cache: Cache, used: set<string>, ix: nat)
    requires Good(w, byId, v, cache, used) && ix < |v.servers|
    ensures Good(w, byId, Connected(v, ix), cache, used) <==> !WouldBeStale(v, cache, ix)
  {
    var (e, f) := (v.servers[ix], Cleared(v.servers[ix]));
    if cache.key.Some? && cache.key.value.server == Some(e.id) {
      var k := cache.key.value;
      assert Agrees(w, e, k, cache.shown);
      BuiltOfCleared(w, e, k.mode, k.displayNames, k.filter);
      UnmarkedIsSame(cache.shown.rows);
      assert Agrees(w, f, k, cache.shown) <==> k.rev == e.rev ==> !Marked(cache.shown.rows) by {
        hide Built, Marked, Unmarked;
      }
      assert Connected(v, ix).servers[ix] == f;
      hide Agrees;
      assert CacheOk(w, Connected(v, ix).servers, cache) <==> Agrees(w, f, k, cache.shown);
    }
  }

  /** After a connect the list on screen still counts as current, and it is wrong exactly when it
      showed a change mark or a subscription. */
  lemma AConnectKeepsOldMarks(w: Words, v: View, cache: Cache, ix: nat)
    requires CacheOk(w, v.servers, cache) && cache.key == Some(KeyOf(v))
    requires v.selected == Some(ix) && ix < |v.servers|
    ensures cache.key == Some(KeyOf(Connected(v, ix)))
    ensures cache.shown == Read(w, Connected(v, ix)) <==> !Marked(cache.shown.rows)
  {
    CurrentKeyIsRight(w, v, cache);
    BuiltOfCleared(w, v.servers[ix], v.mode, v.displayNames, v.filter);
    UnmarkedIsSame(cache.shown.rows);
    hide Built, Marked, Unmarked;
  }

  /** Such a list: a resource subscribed to, just read. */
  lemma AWatchedRow(w: Words, d: Declared)
    requires w.lower("") == ""
    ensures var snapshot := Snapshot([], [d], [], [], false);
            var e := Subscribed(WithSnapshot(Fresh("s"), Some(snapshot)), d.id, true);
            Marked(Built(w, Some(e), Resources, false, "").rows)
  {
    var snapshot := Snapshot([], [d], [], [], false);
    var e := Subscribed(WithSnapshot(Fresh("s"), Some(snapshot)), d.id, true);
    var rows := Rows(w, e, Resources, false, ListOf(snapshot, Resources));
    assert d.id in e.subscribed;
    assert rows == [Row(w, e, Resources, false, d)] && rows[..0] == [];
    assert Matches(w, rows[0], "");
    assert Kept(w, rows, "") == Kept(w, [], "") + [rows[0]];
    assert Built(w, Some(e), Resources, false, "").rows[0].watched;
  }

  class AppState {
    const words: Words
    ghost const byId: string -> Call
    var servers: seq<Entry>
    var selected: Option<nat>
    var mode: Mode
    var filter: string
    var displayNames: bool
    var cache: Cache
    var texts: map<string, map<string, string>>   // search texts built already, by server and call
    ghost var used: set<string>

    function View(): View
      reads this
    {
      Window(servers, selected, mode, filter, displayNames)
    }

    ghost predicate Valid()
      reads this
    {
      && Good(words, byId, View(), cache, used)
      && forall id :: id in texts ==> TextsOk(words, byId, texts[id])
    }

    constructor (words: Words, ghost byId: string -> Call)
      ensures Valid() && View() == Window([], None, Tools, "", false) && used == {}
      ensures this.words == words && this.byId == byId
    {
      this.words, this.byId := words, byId;
      servers, selected, mode, filter, displayNames := [], None, Tools, "", false;
      cache, texts, used := Cache(None, Shown([], 0)), map[], {};
    }

    /** The text of `call`, built unless it is among those `built` already. */
    method TextOf(call: Call, built: map<string, string>) returns (text: string, more: map<string, string>)
      requires TextsOk(words, byId, built) && call == byId(call.id)
      ensures text == words.searchText(call) && TextsOk(words, byId, more)
    {
      more := built;
      if call.id !in built {
        more := built[call.id := words.searchText(call)];
      }
      text := more[call.id];
    }

    method RowsWith(history: seq<Call>, texts: map<string, string>)
      returns (items: seq<Item>, more: map<string, string>)
      requires TextsOk(words, byId, texts) && Recorded(byId, history)
      ensures items == HistoryRows(words, history) && TextsOk(words, byId, more)
    {
      hide TextsOk;
      items, more := [], texts;
      for i := 0 to |history|
        invariant items == HistoryRows(words, history[..i]) && TextsOk(words, byId, more)
      {
        var call := history[i];
        var text;
        text, more := TextOf(call, more);
        items := items + [Item(call.id, call.name, call.failed, false, false, Some(text), call.agent)];
        assert history[..i + 1] == history[..i] + [call];
      }
      assert history[..|history|] == history;
    }

    /** The History rows of `e`. Texts built before are reused; those of calls no longer listed go. */
    method HistoryItems(e: Entry) returns (items: seq<Item>)
      requires Valid() && Recorded(byId, e.history)
      modifies this`texts
      ensures items == HistoryRows(words, e.history) && Valid()
    {
      hide Good, HistoryRows;
      var built := if e.id in texts then texts[e.id] else map[];
      if |built| > |e.history| {
        built := map id | id in built && Lists(e.history, id) :: built[id];
      }
      items, built := RowsWith(e.history, built);
      texts := texts[e.id := built];
    }

    method AllItems() returns (items: seq<Item>)
      requires Valid()
      modifies this`texts
      ensures items == ItemList.AllItems(words, ServerOf(View()), mode, displayNames) && Valid()
    {
      var server := ServerOf(View());
      if server.Some? && mode == History {
        items := HistoryItems(server.value);
      } else {
        items := ItemList.AllItems(words, server, mode, displayNames);
      }
    }

    /** The filtered rows, and how many there are without the filter. */
    method Items() returns (shown: Shown)
      requires Valid()
      modifies this`texts, this`cache
      ensures Valid() && shown == Read(words, View())
      ensures cache == Cache(Some(KeyOf(View())), shown)
    {
      var current := cache.key == Some(KeyOf(View()));
      if !current {
        var all := AllItems();
        cache := Cache(Some(KeyOf(View())), Shown(Kept(words, all, words.lower(filter)), |all|));
      } else {
        CurrentKeyIsRight(words, View(), cache);
      }
      shown := cache.shown;
    }

    method SelectServer(ix: nat)
      requires Valid()
      modifies this`selected, this`filter
      ensures Valid() && View() == After(old(View()), Selecting(ix))
    {
      OpsKeepTheCacheGood(words, byId, View(), cache, used, Selecting(ix));
      if ix < |servers| {
        selected := Some(ix);
        filter := "";
      }
    }

    method SetMode(next: Mode)
      requires Valid()
      modifies this`mode, this`filter
      ensures Valid() && View() == After(old(View()), Switching(next))
    {
      OpsKeepTheCacheGood(words, byId, View(), cache, used, Switching(next));
      if mode != next {
        mode := next;
        filter := "";
      }
    }

    method SetFilter(text: string)
      requires Valid()
      modifies this`filter
      ensures Valid() && View() == After(old(View()), Filtering(text))
    {
      OpsKeepTheCacheGood(words, byId, View(), cache, used, Filtering(text));
      if filter != text {
        filter := text;
      }
    }

    method SetDisplayNames(on: bool)
      requires Valid()
      modifies this`displayNames
      ensures Valid() && View() == After(old(View()), Naming(on))
    {
      OpsKeepTheCacheGood(words, byId, View(), cache, used, Naming(on));
      displayNames := on;
    }

    /** The lists of `kinds` are replaced by those of `now`, and what is new or altered is marked. */
    method ApplyRelisted(ix: nat, now: Snapshot, kinds: seq<Kind>)
      requires Valid() && ix < |servers|
      modifies this`servers
      ensures Valid() && View() == After(old(View()), Changing(ix, ByRelisting(now, kinds)))
    {
      OpsKeepTheCacheGood(words, byId, View(), cache, used, Changing(ix, ByRelisting(now, kinds)));
      hide Good, TextsOk;
      var e := servers[ix];
      if e.snapshot.None? {
        assert servers[ix := e] == servers;
        return;
      }
      var (current, from, marks: set<(Mode, string)>) := (e.snapshot.value, now, {});
      for i := 0 to |kinds|
        invariant var (all, rest) := (RelistedAll(e.snapshot.value, now, kinds),
                                      RelistedAll(current, from, kinds[i..]));
                  all.0 == rest.0 && all.1 == marks + rest.1
      {
        assert kinds[i..][1..] == kinds[i + 1..];
        match kinds[i] {
          case ToolList =>
            marks := marks + Marks(Tools, Altered(current.tools, from.tools));
            current, from := current.(tools := from.tools), from.(tools := []);
          case ResourceList =>
            marks := marks + Marks(Resources, Altered(current.resources, from.resources));
            marks := marks + Marks(Resources, Altered(current.templates, from.templates));
            current := current.(resources := from.resources, templates := from.templates);
            from := from.(resources := [], templates := []);
          case PromptList =>
            marks := marks + Marks(Prompts, Altered(current.prompts, from.prompts));
            current, from := current.(prompts := from.prompts), from.(prompts := []);
        }
      }
      servers := servers[ix := e.(snapshot := Some(current), changed := e.changed + marks, rev := e.rev + 1)];
    }

    method MarkSeen(ix: nat, ofMode: Mode, name: string)
      requires Valid() && ix < |servers|
      modifies this`servers
      ensures Valid() && View() == After(old(View()), Changing(ix, BySeeing(ofMode, name)))
    {
      OpsKeepTheCacheGood(words, byId, View(), cache, used, Changing(ix, BySeeing(ofMode, name)));
      hide Good;
      var e := servers[ix];
      if (ofMode, name) in e.changed {
        e := e.(changed := e.changed - {(ofMode, name)}, rev := e.rev + 1);
      }
      servers := servers[ix := e];
    }

    method SetSubscribed(ix: nat, uri: string, on: bool)
      requires Valid() && ix < |servers|
      modifies this`servers
      ensures Valid() && View() == After(old(View()), Changing(ix, BySubscribing(uri, on)))
    {
      OpsKeepTheCacheGood(words, byId, View(), cache, used, Changing(ix, BySubscribing(uri, on)));
      hide Good;
      var e := servers[ix];
      if (uri in e.subscribed) != on {
        e := e.(subscribed := if on then e.subscribed + {uri} else e.subscribed - {uri}, rev := e.rev + 1);
      }
      servers := servers[ix := e];
    }

    method SetSnapshot(ix: nat, snapshot: Option<Snapshot>)
      requires Valid() && ix < |servers|
      modifies this`servers
      ensures Valid() && View() == After(old(View()), Changing(ix, BySnapshot(snapshot)))
    {
      OpsKeepTheCacheGood(words, byId, View(), cache, used, Changing(ix, BySnapshot(snapshot)));
      hide Good;
      var e := servers[ix];
      e := e.(snapshot := snapshot, rev := e.rev + 1);
      servers := servers[ix := e];
    }

    method PushCall(ix: nat, call: Call)
      requires Valid() && ix < |servers|
      requires Recorded(byId, [call])
      modifies this`servers
      ensures Valid() && View() == After(old(View()), Changing(ix, ByCall(call)))
    {
      OpsKeepTheCacheGood(words, byId, View(), cache, used, Changing(ix, ByCall(call)));
      hide Good;
      var e := servers[ix];
      if !Lists(e.history, call.id) {
        e := e.(history := [call] + e.history, rev := e.rev + 1);
        if |e.history| > MAX_HISTORY {
          e := e.(history := e.history[..MAX_HISTORY]);
        }
      }
      servers := servers[ix := e];
    }

    method SetHistory(ix: nat, calls: seq<Call>)
      requires Valid() && ix < |servers|
      requires Recorded(byId, calls)
      modifies this`servers
      ensures Valid() && View() == After(old(View()), Changing(ix, ByHistory(calls)))
    {
      OpsKeepTheCacheGood(words, byId, View(), cache, used, Changing(ix, ByHistory(calls)));
      hide Good;
      var e := servers[ix];
      e := e.(history := calls, rev := e.rev + 1);
      servers := servers[ix := e];
    }

    method Change(ix: nat, how: How)
      requires Valid() && ix < |servers| && Allowed(byId, used, Changing(ix, how))
      modifies this`servers
      ensures Valid() && View() == After(old(View()), Changing(ix, how))
    {
      hide Good, After;
      match how {
        case BySeeing(ofMode, name) => MarkSeen(ix, ofMode, name);
        case BySubscribing(uri, on) => SetSubscribed(ix, uri, on);
        case ByRelisting(now, kinds) => ApplyRelisted(ix, now, kinds);
        case BySnapshot(snapshot) => SetSnapshot(ix, snapshot);
        case ByCall(call) => PushCall(ix, call);
        case ByHistory(calls) => SetHistory(ix, calls);
      }
    }

    method PushServer(id: string)
      requires Valid() && id !in used
      modifies this`servers, this`used
      ensures Valid() && View() == After(old(View()), Adding(id)) && used == old(used) + {id}
    {
      OpsKeepTheCacheGood(words, byId, View(), cache, used, Adding(id));
      servers := servers + [Fresh(id)];
      used := used + {id};
    }

    method FinishDelete(id: string)
      requires Valid()
      modifies this`servers, this`selected, this`texts
      ensures Valid() && View() == After(old(View()), Deleting(id))
    {
      OpsKeepTheCacheGood(words, byId, View(), cache, used, Deleting(id));
      hide Good, TextsOk;
      var ix := Find(servers, id);
      if ix == |servers| {
        return;
      }
      servers := servers[..ix] + servers[ix + 1..];
      texts := texts - {id};
      if selected.Some? {
        var s := selected.value;
        if s == ix {
          selected := if servers == [] then None else Some(if ix < |servers| then ix else |servers| - 1);
        } else if s > ix {
          selected := Some(s - 1);
        }
      }
    }

    /** The part of a connect the rows depend on. */
    method Connect(ix: nat)
      requires Valid() && ix < |servers|
      modifies this`servers
      ensures View() == Connected(old(View()), ix)
      ensures Valid() <==> !WouldBeStale(old(View()), cache, ix)
    {
      ConnectKeepsTheCacheGood(words, byId, View(), cache, used, ix);
      hide Good, TextsOk, WouldBeStale;
      servers := servers[ix := servers[ix].(changed := {}, subscribed := {})];
    }

    /** Carries out `ops` in turn, and returns what its reads showed. */
    method Run(ops: seq<Op>) returns (read: seq<Shown>)
      requires Valid() && AllAllowed(byId, used, ops)
      modifies this
      ensures Valid() && read == Reads(words, old(View()), ops)
    {
      hide Good, After, TextsOk, Read, Allowed, UsedAfter, AppState.Valid;
      read := [];
      for i := 0 to |ops|
        invariant Valid() && AllAllowed(byId, used, ops[i..])
        invariant Reads(words, old(View()), ops) == read + Reads(words, View(), ops[i..])
      {
        assert ops[i..][1..] == ops[i + 1..];
        read := Perform(ops[i], read);
      }
    }

    /** Carries out `op`; a read is added to `before`. */
    method Perform(op: Op, before: seq<Shown>) returns (read: seq<Shown>)
      requires Valid() && Allowed(byId, used, op)
      modifies this
      ensures Valid() && View() == After(old(View()), op) && used == UsedAfter(old(used), op)
      ensures read == before + if op.Reading? then [Read(words, old(View()))] else []
    {
      read := before;
      match op {
        case Reading =>
          var shown := Items();
          read := read + [shown];
        case Selecting(ix) => SelectServer(ix);
        case Switching(next) => SetMode(next);
        case Filtering(text) => SetFilter(text);
        case Naming(on) => SetDisplayNames(on);
        case Changing(ix, how) =>
          if ix < |servers| {
            Change(ix, how);
          }
        case Adding(id) => PushServer(id);
        case Deleting(id) => FinishDelete(id);
      }
    }
  }
}
