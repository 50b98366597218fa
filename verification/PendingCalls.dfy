/** Calls agents made through the gateway, waiting for their answers. The table is keyed by text; it
    behaves as if keyed by agent and request. */
module PendingCalls {
  import opened Json
  import opened Namespaces

  const MAX_PENDING: nat := 4096

  /** An agent's connection to one server. */
  datatype Who = Who(namespace: string, session: string)

  datatype CallKind = Tool | Prompt | Resource

  datatype Call = Call(kind: CallKind, name: string, args: Json)

  datatype Pending = Pending(call: Call, order: nat)

  /** A call kept in History, under the connection that made it and the server that connection reaches. */
  datatype Entry = Entry(who: Who, server: string, pending: Pending)

  /** A request; `id` is its JSON text. */
  type Ask = (Who, string)

  function Text(field: Option<Json>): Option<string> {
    if field.Some? && field.value.String? then Some(field.value.s) else None
  }

  /** The call a request is, when it is one that History keeps. */
  function CallOf(name: string, params: Option<Json>): Option<Call> {
    if params.None? then None
    else
      var arguments := Field(params.value, "arguments");
      var args := if arguments.Some? then arguments.value else Null;
      var (named, uri) := (Text(Field(params.value, "name")), Text(Field(params.value, "uri")));
      if name == "tools/call" && named.Some? then Some(Call(Tool, named.value, args))
      else if name == "prompts/get" && named.Some? then Some(Call(Prompt, named.value, args))
      else if name == "resources/read" && uri.Some? then Some(Call(Resource, uri.value, String(uri.value)))
      else None
  }

  /** The requests History keeps: tool calls and prompts by name with their arguments, and resources read
      by URI. */
  lemma WhatIsACall(name: string, params: Json, call: Call)
    ensures CallOf(name, None) == None
    ensures var arguments := Field(params, "arguments");
            CallOf(name, Some(params)) == Some(call) <==>
              || (name == "tools/call" && call.kind.Tool? && Field(params, "name") == Some(String(call.name))
                  && call.args == if arguments.Some? then arguments.value else Null)
              || (name == "prompts/get" && call.kind.Prompt? && Field(params, "name") == Some(String(call.name))
                  && call.args == if arguments.Some? then arguments.value else Null)
              || (name == "resources/read" && call.kind.Resource? && Field(params, "uri") == Some(String(call.name))
                  && call.args == String(call.name))
  {
  }

  // --- Keys ---

  function AgentKey(who: Who): string {
    who.namespace + "/" + who.session
  }

  function PendingKey(agent: string, id: string): string {
    agent + "#" + id
  }

  function Key(ask: Ask): string {
    PendingKey(AgentKey(ask.0), ask.1)
  }

  /** What keeps keys apart: a namespace has no `/` or `#`, and a session no `#`. */
  predicate Plain(who: Who) {
    '/' !in who.namespace && '#' !in who.namespace && '#' !in who.session
  }

  lemma SplitsAtFirst(a: string, b: string, c: string, d: string, mark: char)
    requires mark !in a && mark !in c && a + [mark] + b == c + [mark] + d
    ensures a == c && b == d
  {
    var s := a + [mark] + b;
    assert s[|a|] == mark && s[|c|] == mark;
    assert forall i :: 0 <= i < |a| ==> a[i] == s[i];
    assert forall i :: 0 <= i < |c| ==> c[i] == s[i];
    assert a == s[..|a|] == c && b == s[|a| + 1..] == d;
  }

  lemma NoHashInKey(who: Who)
    requires Plain(who)
    ensures '#' !in AgentKey(who)
  {
  }

  /** No two connections have the same key, and no two of their requests. */
  lemma KeysInjective(x: Ask, y: Ask)
    requires Plain(x.0) && Plain(y.0)
    ensures AgentKey(x.0) == AgentKey(y.0) <==> x.0 == y.0
    ensures Key(x) == Key(y) <==> x == y
  {
    if AgentKey(x.0) == AgentKey(y.0) {
      SplitsAtFirst(x.0.namespace, x.0.session, y.0.namespace, y.0.session, '/');
    }
    if Key(x) == Key(y) {
      NoHashInKey(x.0);
      NoHashInKey(y.0);
      SplitsAtFirst(AgentKey(x.0), x.1, AgentKey(y.0), y.1, '#');
    }
  }

  /** A key starts with a connection's key and `#` exactly when the request is that connection's. */
  lemma PrefixIsExact(who: Who, ask: Ask)
    requires Plain(who) && Plain(ask.0)
    ensures AgentKey(who) + "#" <= Key(ask) <==> ask.0 == who
  {
    if AgentKey(who) + "#" <= Key(ask) {
      var rest := Key(ask)[|AgentKey(who)| + 1..];
      assert Key(ask) == AgentKey(who) + "#" + rest == Key((who, rest));
      KeysInjective((who, rest), ask);
    }
  }

  /** A session with a `#` would be taken for a request of the connection its name starts with. */
  lemma AHashInASessionConfuses(who: Who, rest: string, id: string)
    ensures var other := Who(who.namespace, who.session + "#" + rest);
            Key((other, id)) == Key((who, rest + "#" + id)) && AgentKey(who) + "#" <= Key((other, id))
  {
    assert who.namespace + "/" + (who.session + "#" + rest) + "#" + id
        == who.namespace + "/" + who.session + "#" + (rest + "#" + id);
  }

  // --- The table, as if keyed by agent and request ---

  datatype Table = Table(agents: map<Who, string>, pending: map<Ask, Pending>, asked: nat, recorded: seq<Entry>)

  const EMPTY := Table(map[], map[], 0, [])

  datatype Event =
    | Opened(who: Who, server: Option<string>)   // the server its path is of, when it is of one
    | Asked(ask: Ask, call: Option<Call>)
    | Cancelled(ask: Ask)
    | Answered(ask: Ask, servers: set<string>)   // with the servers there are
    | Closed(who: Who)
    | Detached

  ghost predicate Oldest<K(!new)>(m: map<K, Pending>, key: K) {
    key in m && forall k :: k in m ==> m[key].order <= m[k].order
  }

  /** Drops the oldest when the table is full. */
  ghost predicate Room<K(!new)>(m: map<K, Pending>, n: map<K, Pending>) {
    if |m| < MAX_PENDING then n == m else exists key :: Oldest(m, key) && n == m - {key}
  }

  /** What an answer adds to History: the request, if it waits, its agent is connected and the server it
      reaches is still there. */
  function Kept(t: Table, ask: Ask, servers: set<string>): seq<Entry> {
    if ask in t.pending && ask.0 in t.agents && t.agents[ask.0] in servers
    then [Entry(ask.0, t.agents[ask.0], t.pending[ask])] else []
  }

  ghost predicate Step(t: Table, event: Event, u: Table) {
    match event
    case Opened(who, None) => u == t
    case Opened(who, Some(server)) => u == t.(agents := t.agents[who := server])
    case Asked(ask, None) => u == t
    case Asked(ask, Some(call)) =>
      exists left :: Room(t.pending, left)
        && u == t.(pending := left[ask := Pending(call, t.asked + 1)], asked := t.asked + 1)
    case Cancelled(ask) => u == t.(pending := t.pending - {ask})
    case Answered(ask, servers) => u == t.(pending := t.pending - {ask}, recorded := t.recorded + Kept(t, ask, servers))
    case Closed(who) =>
      u == t.(agents := t.agents - {who}, pending := map ask | ask in t.pending && ask.0 != who :: t.pending[ask])
    case Detached => u == t.(agents := map[], pending := map[])
  }

  /** What the other events leave: a connection opened reaches its server, one that closes takes its own
      requests with it and no others, a request given up on waits no more, and nothing does once the gateway
      is gone. */
  lemma WhatEventsLeave(t: Table, event: Event, u: Table, who: Who, ask: Ask)
    requires Step(t, event, u)
    ensures event.Opened? && event.server.Some? ==>
              event.who in u.agents && u.agents[event.who] == event.server.value
    ensures event.Opened? && who != event.who && who in t.agents ==> who in u.agents && u.agents[who] == t.agents[who]
    ensures event.Opened? && event.server.None? ==> u.agents == t.agents
    ensures event.Opened? || event.Closed? ==> (who != event.who ==> (who in u.agents <==> who in t.agents))
    ensures event.Closed? ==> event.who !in u.agents && (ask in u.pending <==> ask in t.pending && ask.0 != event.who)
    ensures event.Cancelled? ==> u.agents == t.agents && (ask in u.pending <==> ask in t.pending && ask != event.ask)
    ensures event.Detached? ==> u.agents == map[] && u.pending == map[]
    ensures !event.Asked? && ask in u.pending ==> ask in t.pending && u.pending[ask] == t.pending[ask]
    ensures !event.Answered? ==> u.recorded == t.recorded
    ensures event.Opened? ==> u.pending == t.pending
  {
    hide Room;
  }

  /** At most so many, each under its own number; what was recorded was asked once and waits no more. */
  ghost predicate Inv(t: Table) {
    |t.pending| <= MAX_PENDING && NumberedApart(t.pending, t.asked) && RecordedOnce(t.recorded, t.pending, t.asked)
  }

  ghost predicate NumberedApart(pending: map<Ask, Pending>, asked: nat) {
    && (forall ask :: ask in pending ==> 0 < pending[ask].order <= asked)
    && (forall x, y :: x in pending && y in pending && pending[x].order == pending[y].order ==> x == y)
  }

  ghost predicate RecordedOnce(recorded: seq<Entry>, pending: map<Ask, Pending>, asked: nat) {
    && (forall i :: 0 <= i < |recorded| ==> 0 < recorded[i].pending.order <= asked)
    && (forall i, ask :: 0 <= i < |recorded| && ask in pending ==> recorded[i].pending.order != pending[ask].order)
    && (forall i, j :: 0 <= i < j < |recorded| ==> recorded[i].pending.order != recorded[j].pending.order)
  }

  lemma FewerKeys<K, V>(m: map<K, V>, n: map<K, V>)
    requires m.Keys <= n.Keys
    ensures |m| <= |n|
  {
    SubsetSize(m.Keys, n.Keys);
    assert |m.Keys| == |m| && |n.Keys| == |n|;
  }

  lemma RoomIsMade<K(!new)>(m: map<K, Pending>, left: map<K, Pending>)
    requires Room(m, left) && |m| <= MAX_PENDING
    ensures |left| < MAX_PENDING && left.Keys <= m.Keys && forall k :: k in left ==> left[k] == m[k]
  {
    if |m| >= MAX_PENDING {
      var key :| Oldest(m, key) && left == m - {key};
      assert left.Keys == m.Keys - {key};
      assert |left.Keys| == |left| && |m.Keys| == |m|;
    }
  }

  lemma AddingKeepsApart(pending: map<Ask, Pending>, left: map<Ask, Pending>, asked: nat, ask: Ask, p: Pending)
    requires NumberedApart(pending, asked) && p.order == asked + 1
    requires left.Keys <= pending.Keys && forall k :: k in left ==> left[k] == pending[k]
    ensures NumberedApart(left[ask := p], asked + 1)
  {
  }

  lemma AddingKeepsRecorded(recorded: seq<Entry>, pending: map<Ask, Pending>, left: map<Ask, Pending>, asked: nat,
                            ask: Ask, p: Pending)
    requires RecordedOnce(recorded, pending, asked) && p.order == asked + 1
    requires left.Keys <= pending.Keys && forall k :: k in left ==> left[k] == pending[k]
    ensures RecordedOnce(recorded, left[ask := p], asked + 1)
  {
  }

  lemma WhatAskingLeaves(t: Table, ask: Ask, call: Call, u: Table) returns (left: map<Ask, Pending>)
    requires Step(t, Asked(ask, Some(call)), u)
    ensures Room(t.pending, left)
    ensures u == t.(pending := left[ask := Pending(call, t.asked + 1)], asked := t.asked + 1)
  {
    hide Room;
    left :| Room(t.pending, left)
            && u == t.(pending := left[ask := Pending(call, t.asked + 1)], asked := t.asked + 1);
  }

  lemma AskingKeepsInv(t: Table, ask: Ask, call: Call, u: Table)
    requires Inv(t) && Step(t, Asked(ask, Some(call)), u)
    ensures Inv(u)
  {
    hide NumberedApart, RecordedOnce, Room, Step;
    var p := Pending(call, t.asked + 1);
    var left := WhatAskingLeaves(t, ask, call, u);
    RoomIsMade(t.pending, left);
    AddingKeepsApart(t.pending, left, t.asked, ask, p);
    AddingKeepsRecorded(t.recorded, t.pending, left, t.asked, ask, p);
    assert u.pending.Keys == left.Keys + {ask};
    assert |u.pending.Keys| == |u.pending| && |left.Keys| == |left|;
  }

  lemma FewerKeepsInv(t: Table, u: Table)
    requires Inv(t) && u.asked == t.asked && u.recorded == t.recorded
    requires u.pending.Keys <= t.pending.Keys && forall ask :: ask in u.pending ==> u.pending[ask] == t.pending[ask]
    ensures Inv(u)
  {
    FewerKeys(u.pending, t.pending);
  }

  lemma RecordingKeepsInv(t: Table, record: Entry)
    requires Inv(t) && 0 < record.pending.order <= t.asked
    requires forall ask :: ask in t.pending ==> t.pending[ask].order != record.pending.order
    requires forall i :: 0 <= i < |t.recorded| ==> t.recorded[i].pending.order != record.pending.order
    ensures Inv(t.(recorded := t.recorded + [record]))
  {
    hide NumberedApart;
  }

  lemma AnswerKeepsInv(t: Table, ask: Ask, servers: set<string>, u: Table)
    requires Inv(t) && Step(t, Answered(ask, servers), u)
    ensures Inv(u)
  {
    var v := t.(pending := t.pending - {ask});
    FewerKeepsInv(t, v);
    if Kept(t, ask, servers) != [] {
      RecordingKeepsInv(v, Kept(t, ask, servers)[0]);
    } else {
      assert u == v;
    }
  }

  lemma StepKeepsInv(t: Table, event: Event, u: Table)
    requires Inv(t) && Step(t, event, u)
    ensures Inv(u)
  {
    hide Inv;
    match event {
      case Asked(ask, Some(call)) => AskingKeepsInv(t, ask, call, u);
      case Asked(ask, None) =>
      case Answered(ask, servers) => AnswerKeepsInv(t, ask, servers, u);
      case _ => FewerKeepsInv(t, u);
    }
  }

  /** A request is recorded as asked, under the agent that asked it, and only while it waits: what
      another agent or another id is answered changes nothing of it. */
  lemma AnswersTakeTheirOwn(t: Table, ask: Ask, servers: set<string>, u: Table, other: Ask)
    requires Step(t, Answered(ask, servers), u) && other != ask
    ensures (other in u.pending <==> other in t.pending)
    ensures (other in t.pending ==> u.pending[other] == t.pending[other])
    ensures ask !in u.pending && t.recorded <= u.recorded && |u.recorded| <= |t.recorded| + 1
    ensures u.recorded != t.recorded <==> ask in t.pending && ask.0 in t.agents && t.agents[ask.0] in servers
    ensures u.recorded != t.recorded ==> u.recorded[|t.recorded|] == Entry(ask.0, t.agents[ask.0], t.pending[ask])
  {
  }

  /** What a full table lets go of is the request asked first. */
  lemma EvictsTheOldest(t: Table, ask: Ask, call: Call, u: Table, gone: Ask)
    requires Inv(t) && Step(t, Asked(ask, Some(call)), u)
    requires gone in t.pending && gone !in u.pending
    ensures |t.pending| == MAX_PENDING && Oldest(t.pending, gone)
    ensures forall other :: other in t.pending && other != gone ==> other in u.pending
  {
  }

  ghost predicate Run(trace: seq<Table>, events: seq<Event>) {
    && |trace| == |events| + 1 && trace[0] == EMPTY
    && forall i :: 0 <= i < |events| ==> Step(trace[i], events[i], trace[i + 1])
  }

  lemma {:induction false} RunKeepsInv(trace: seq<Table>, events: seq<Event>, k: nat)
    requires Run(trace, events) && k < |trace|
    ensures Inv(trace[k])
  {
    hide Step;
    if k > 0 {
      RunKeepsInv(trace, events, k - 1);
      StepKeepsInv(trace[k - 1], events[k - 1], trace[k]);
    }
  }

  lemma OnlyAskingAdds(t: Table, event: Event, u: Table, ask: Ask)
    requires Inv(t) && Step(t, event, u) && ask in u.pending && !(ask in t.pending && t.pending[ask] == u.pending[ask])
    ensures event == Asked(ask, Some(u.pending[ask].call)) && u.pending[ask].order == t.asked + 1
  {
    hide NumberedApart, RecordedOnce;
    if event.Asked? && event.call.Some? {
      var left := WhatAskingLeaves(t, event.ask, event.call.value, u);
      RoomIsMade(t.pending, left);
    }
    hide Room;
  }

  /** A request that waits was asked, with that call, when its number was handed out. */
  lemma {:induction false} WaitingWasAsked(trace: seq<Table>, events: seq<Event>, k: nat, ask: Ask) returns (j: nat)
    requires Run(trace, events) && k < |trace| && ask in trace[k].pending
    ensures j < k && events[j] == Asked(ask, Some(trace[k].pending[ask].call))
    ensures trace[j].asked + 1 == trace[k].pending[ask].order
  {
    hide Step, Inv;
    j := 0;
    if k > 0 {
      var (t, u) := (trace[k - 1], trace[k]);
      assert Step(t, events[k - 1], u);
      if ask in t.pending && t.pending[ask] == u.pending[ask] {
        j := WaitingWasAsked(trace, events, k - 1, ask);
      } else {
        RunKeepsInv(trace, events, k - 1);
        OnlyAskingAdds(t, events[k - 1], u, ask);
        j := k - 1;
      }
    }
  }

  /** What a step records was waiting until then. */
  lemma RecordsWhatWaited(t: Table, event: Event, u: Table, i: nat)
    requires Step(t, event, u) && i < |u.recorded|
    ensures i < |t.recorded| ==> u.recorded[i] == t.recorded[i]
    ensures i >= |t.recorded| ==>
              && event.Answered? && event.ask in t.pending && event.ask.0 in t.agents
              && t.agents[event.ask.0] in event.servers
              && u.recorded[i] == Entry(event.ask.0, t.agents[event.ask.0], t.pending[event.ask])
  {
    hide Room;
  }

  /** A connection that is known was opened to the server it reaches. */
  lemma {:induction false} AgentWasOpened(trace: seq<Table>, events: seq<Event>, k: nat, who: Who) returns (j: nat)
    requires Run(trace, events) && k < |trace| && who in trace[k].agents
    ensures j < k && events[j] == Opened(who, Some(trace[k].agents[who]))
  {
    j := 0;
    if k > 0 {
      var (t, u) := (trace[k - 1], trace[k]);
      assert Step(t, events[k - 1], u);
      if who in t.agents && t.agents[who] == u.agents[who] {
        j := AgentWasOpened(trace, events, k - 1, who);
      } else {
        j := k - 1;
      }
    }
  }

  /** Every recorded call was asked, by that agent and with that call, and is recorded once; and the
      agent had connected to the server it is recorded for. */
  lemma {:induction false} RecordedWasAsked(trace: seq<Table>, events: seq<Event>, k: nat, i: nat)
      returns (j: nat, id: string, since: nat)
    requires Run(trace, events) && k < |trace| && i < |trace[k].recorded|
    ensures var record := trace[k].recorded[i];
            && j < k && events[j] == Asked((record.who, id), Some(record.pending.call))
            && trace[j].asked + 1 == record.pending.order
            && since < k && events[since] == Opened(record.who, Some(record.server))
    ensures forall other :: 0 <= other < |trace[k].recorded| && other != i ==>
              trace[k].recorded[other].pending.order != trace[j].asked + 1
  {
    hide NumberedApart, Step;
    RunKeepsInv(trace, events, k);
    j, id, since := 0, "", 0;
    if k > 0 {
      var (t, u) := (trace[k - 1], trace[k]);
      RecordsWhatWaited(t, events[k - 1], u, i);
      if i < |t.recorded| {
        j, id, since := RecordedWasAsked(trace, events, k - 1, i);
      } else {
        var ask := events[k - 1].ask;
        id := ask.1;
        j := WaitingWasAsked(trace, events, k - 1, ask);
        since := AgentWasOpened(trace, events, k - 1, ask.0);
      }
    }
  }

  // --- The table as it is kept, keyed by text ---

  /** `kept` holds what `pending` does, each under its key. */
  ghost predicate Keyed(kept: map<string, Pending>, pending: map<Ask, Pending>) {
    && (forall ask :: ask in pending ==> Plain(ask.0) && Key(ask) in kept && kept[Key(ask)] == pending[ask])
    && (forall key :: key in kept ==> exists ask :: ask in pending && Key(ask) == key)
  }

  ghost predicate AgentsKeyed(kept: map<string, string>, agents: map<Who, string>) {
    && (forall who :: who in agents ==> Plain(who) && AgentKey(who) in kept && kept[AgentKey(who)] == agents[who])
    && (forall key :: key in kept ==> exists who :: who in agents && AgentKey(who) == key)
  }

  lemma AskOf(kept: map<string, Pending>, pending: map<Ask, Pending>, key: string) returns (ask: Ask)
    requires Keyed(kept, pending) && key in kept
    ensures ask in pending && Key(ask) == key && kept[key] == pending[ask] && Plain(ask.0)
  {
    hide Key, Plain;
    ask :| ask in pending && Key(ask) == key;
  }

  lemma KeyedHas(kept: map<string, Pending>, pending: map<Ask, Pending>, ask: Ask)
    requires Keyed(kept, pending) && Plain(ask.0)
    ensures Key(ask) in kept <==> ask in pending
    ensures ask in pending ==> kept[Key(ask)] == pending[ask]
  {
    hide Key, Plain;
    if Key(ask) in kept {
      var x := AskOf(kept, pending, Key(ask));
      KeysInjective(x, ask);
    }
  }

  lemma KeyedRemove(kept: map<string, Pending>, pending: map<Ask, Pending>, ask: Ask)
    requires Keyed(kept, pending) && Plain(ask.0)
    ensures Keyed(kept - {Key(ask)}, pending - {ask})
  {
    hide Key, Plain;
    forall x | x in pending ensures Key(x) == Key(ask) <==> x == ask {
      KeysInjective(x, ask);
    }
    forall key | key in kept && key != Key(ask) ensures exists x :: x in pending - {ask} && Key(x) == key {
      var x := AskOf(kept, pending, key);
      assert x in pending - {ask};
    }
  }

  lemma KeyedInsert(kept: map<string, Pending>, pending: map<Ask, Pending>, ask: Ask, p: Pending)
    requires Keyed(kept, pending) && Plain(ask.0)
    ensures Keyed(kept[Key(ask) := p], pending[ask := p])
  {
    hide Key, Plain;
    forall x | x in pending ensures Key(x) == Key(ask) <==> x == ask {
      KeysInjective(x, ask);
    }
    forall key | key in kept || key == Key(ask) ensures exists x :: x in pending[ask := p] && Key(x) == key {
      if key != Key(ask) {
        var x := AskOf(kept, pending, key);
        assert x in pending[ask := p];
      } else {
        assert ask in pending[ask := p];
      }
    }
  }

  lemma {:induction false} KeyedSize(kept: map<string, Pending>, pending: map<Ask, Pending>)
    requires Keyed(kept, pending)
    ensures |kept| == |pending|
    decreases |kept|
  {
    hide Key, Plain;
    if kept == map[] {
      assert pending.Keys == {};
    } else {
      var key :| key in kept;
      var ask := AskOf(kept, pending, key);
      KeyedRemove(kept, pending, ask);
      assert (kept - {key}).Keys == kept.Keys - {key} && (pending - {ask}).Keys == pending.Keys - {ask};
      assert |kept.Keys| == |kept| && |(kept - {key}).Keys| == |kept - {key}|;
      assert |pending.Keys| == |pending| && |(pending - {ask}).Keys| == |pending - {ask}|;
      KeyedSize(kept - {key}, pending - {ask});
    }
  }

  lemma KeyedOldest(kept: map<string, Pending>, pending: map<Ask, Pending>, ask: Ask)
    requires Keyed(kept, pending) && ask in pending && Oldest(kept, Key(ask))
    ensures Oldest(pending, ask)
  {
    hide Key, Plain;
    forall x | x in pending ensures pending[ask].order <= pending[x].order {
      assert Key(x) in kept;
    }
  }

  /** What closing connection `who` leaves, chosen by key prefix, is what the other connections asked. */
  lemma KeyedClose(kept: map<string, Pending>, pending: map<Ask, Pending>, who: Who)
    requires Keyed(kept, pending) && Plain(who)
    ensures Keyed(map key | key in kept && !(AgentKey(who) + "#" <= key) :: kept[key],
                  map ask | ask in pending && ask.0 != who :: pending[ask])
  {
    hide Key, Plain, AgentKey;
    var left := map ask | ask in pending && ask.0 != who :: pending[ask];
    forall ask | ask in pending ensures AgentKey(who) + "#" <= Key(ask) <==> ask.0 == who {
      PrefixIsExact(who, ask);
    }
    forall key | key in kept && !(AgentKey(who) + "#" <= key) ensures exists x :: x in left && Key(x) == key {
      var x := AskOf(kept, pending, key);
      assert x in left;
    }
  }

  lemma AgentsHas(kept: map<string, string>, agents: map<Who, string>, who: Who)
    requires AgentsKeyed(kept, agents) && Plain(who)
    ensures AgentKey(who) in kept <==> who in agents
    ensures who in agents ==> kept[AgentKey(who)] == agents[who]
  {
    hide Key, Plain, AgentKey;
    if AgentKey(who) in kept {
      var x :| x in agents && AgentKey(x) == AgentKey(who);
      KeysInjective((x, ""), (who, ""));
    }
  }

  lemma AgentsChange(kept: map<string, string>, agents: map<Who, string>, who: Who, server: string)
    requires AgentsKeyed(kept, agents) && Plain(who)
    ensures AgentsKeyed(kept[AgentKey(who) := server], agents[who := server])
    ensures AgentsKeyed(kept - {AgentKey(who)}, agents - {who})
  {
    hide Key, Plain, AgentKey;
    forall x | x in agents ensures AgentKey(x) == AgentKey(who) <==> x == who {
      KeysInjective((x, ""), (who, ""));
    }
    var (all, more) := (kept[AgentKey(who) := server], agents[who := server]);
    forall key | key in all ensures exists x :: x in more && AgentKey(x) == key {
      if key != AgentKey(who) {
        var x :| x in agents && AgentKey(x) == key;
        assert x in more;
      } else {
        assert who in more;
      }
    }
    forall key | key in kept - {AgentKey(who)} ensures exists x :: x in agents - {who} && AgentKey(x) == key {
      var x :| x in agents && AgentKey(x) == key;
      assert x in agents - {who};
    }
  }

  /** The server whose path a connection was opened to. */
  function ServerAt(plan: seq<(string, Included)>, namespace: string): (server: Option<string>)
    ensures server.None? <==> forall i :: 0 <= i < |plan| ==> plan[i].1.namespace != namespace
  {
    if plan == [] then None
    else if plan[0].1.namespace == namespace then Some(plan[0].0)
    else
      var server := ServerAt(plan[1..], namespace);
      assert forall i :: 0 < i < |plan| ==> plan[i] == plan[1..][i - 1];
      server
  }

  lemma {:induction false} ServerAtFinds(plan: seq<(string, Included)>, i: nat)
    requires i < |plan| && forall j :: 0 <= j < |plan| && j != i ==> plan[j].1.namespace != plan[i].1.namespace
    ensures ServerAt(plan, plan[i].1.namespace) == Some(plan[i].0)
  {
    if i > 0 {
      assert forall j :: 0 < j < |plan| ==> plan[j] == plan[1..][j - 1];
      assert plan[0].1.namespace != plan[i].1.namespace;
      ServerAtFinds(plan[1..], i - 1);
    }
  }

  /** By what the gateway serves, a path leads to the one server that has it. */
  lemma PathsLeadToTheirServers(settings: map<string, Included>, servers: seq<Record>,
                                plan: seq<(string, Included)>, i: nat)
    requires IsPlan(settings, servers, plan) && i < |plan|
    ensures ServerAt(plan, plan[i].1.namespace) == Some(servers[i].id)
  {
    forall j | 0 <= j < |plan| && j != i ensures plan[j].1.namespace != plan[i].1.namespace {
      if j < i {
        NamespacesDiffer(settings, servers, plan, j, i);
      } else {
        NamespacesDiffer(settings, servers, plan, i, j);
      }
    }
    ServerAtFinds(plan, i);
  }

  class GatewayState {
    var agents: map<string, string>
    var pending: map<string, Pending>
    var asked: nat
    ghost var table: Table

    ghost predicate Valid()
      reads this
    {
      && Inv(table) && asked == table.asked
      && Keyed(pending, table.pending) && AgentsKeyed(agents, table.agents)
    }

    constructor ()
      ensures Valid() && table == EMPTY
    {
      agents, pending, asked, table := map[], map[], 0, EMPTY;
    }

    /** A connection to a path no server has is not taken in. */
    method Open(who: Who, plan: seq<(string, Included)>)
      requires Valid() && Plain(who)
      modifies this`agents, this`table
      ensures Valid() && Step(old(table), Opened(who, ServerAt(plan, who.namespace)), table)
    {
      hide Key, Plain, AgentKey, Keyed, AgentsKeyed, Inv;
      var server := ServerAt(plan, who.namespace);
      if server.None? {
        return;
      }
      AgentsChange(agents, table.agents, who, server.value);
      agents := agents[AgentKey(who) := server.value];
      table := table.(agents := table.agents[who := server.value]);
      StepKeepsInv(old(table), Opened(who, server), table);
    }

    /** The key asked first, when there is any. */
    method OldestKey() returns (oldest: Option<string>)
      ensures pending == map[] <==> oldest.None?
      ensures oldest.Some? ==> Oldest(pending, oldest.value)
    {
      oldest := None;
      var left := pending.Keys;
      while left != {}
        invariant left <= pending.Keys
        invariant oldest.None? ==> left == pending.Keys
        invariant oldest.Some? ==> oldest.value in pending
        invariant oldest.Some? ==>
                    forall k :: k in pending.Keys - left ==> pending[oldest.value].order <= pending[k].order
        decreases |left|
      {
        var key :| key in left;
        if oldest.None? || pending[key].order < pending[oldest.value].order {
          oldest := Some(key);
        }
        left := left - {key};
      }
    }

    /** Drops the request asked first while the table is full. */
    method MakeRoom()
      requires Valid()
      modifies this`pending, this`table
      ensures asked == table.asked && Keyed(pending, table.pending) && AgentsKeyed(agents, table.agents)
      ensures Room(old(table).pending, table.pending) && table == old(table).(pending := table.pending)
    {
      hide Key, Plain, AgentKey, Keyed, AgentsKeyed, Inv;
      KeyedSize(pending, table.pending);
      if |pending| >= MAX_PENDING {
        var oldest := OldestKey();
        if oldest.Some? {
          ghost var ask := AskOf(pending, table.pending, oldest.value);
          KeyedOldest(pending, table.pending, ask);
          KeyedRemove(pending, table.pending, ask);
          pending := pending - {oldest.value};
          table := table.(pending := table.pending - {ask});
        }
      }
    }

    /** A request goes out: when it is a call, it waits for its answer. */
    method Ask(ask: Ask, name: string, params: Option<Json>)
      requires Valid() && Plain(ask.0)
      modifies this`pending, this`asked, this`table
      ensures Valid() && Step(old(table), Asked(ask, CallOf(name, params)), table)
    {
      hide Key, Plain, AgentKey, Keyed, AgentsKeyed, Inv, CallOf;
      var call := CallOf(name, params);
      if call.None? {
        return;
      }
      MakeRoom();
      asked := asked + 1;
      KeyedInsert(pending, table.pending, ask, Pending(call.value, asked));
      pending := pending[Key(ask) := Pending(call.value, asked)];
      ghost var left := table.pending;
      table := table.(pending := left[ask := Pending(call.value, asked)], asked := asked);
      assert Room(old(table).pending, left)
        && table == old(table).(pending := left[ask := Pending(call.value, old(table).asked + 1)],
                                asked := old(table).asked + 1);
      StepKeepsInv(old(table), Asked(ask, call), table);
    }

    method Cancel(ask: Ask)
      requires Valid() && Plain(ask.0)
      modifies this`pending, this`table
      ensures Valid() && Step(old(table), Cancelled(ask), table)
    {
      hide Key, Plain, AgentKey, Keyed, AgentsKeyed, Inv;
      KeyedRemove(pending, table.pending, ask);
      pending := pending - {Key(ask)};
      table := table.(pending := table.pending - {ask});
      StepKeepsInv(old(table), Cancelled(ask), table);
    }

    /** Returns the call to record, when the answer is to a request that waits, its agent is known and the
        server it reaches is among `servers`. */
    method Answer(ask: Ask, servers: set<string>) returns (record: Option<Entry>)
      requires Valid() && Plain(ask.0)
      modifies this`pending, this`table
      ensures Valid() && Step(old(table), Answered(ask, servers), table)
      ensures table.recorded == old(table).recorded + if record.Some? then [record.value] else []
    {
      hide Key, Plain, AgentKey, Keyed, AgentsKeyed, Inv;
      record := None;
      KeyedHas(pending, table.pending, ask);
      AgentsHas(agents, table.agents, ask.0);
      var key := AgentKey(ask.0);
      if Key(ask) !in pending {
        assert table.pending - {ask} == table.pending;
        return;
      }
      var found := pending[Key(ask)];
      KeyedRemove(pending, table.pending, ask);
      pending := pending - {Key(ask)};
      if key in agents && agents[key] in servers {
        record := Some(Entry(ask.0, agents[key], found));
      }
      table := table.(pending := table.pending - {ask}, recorded := table.recorded + Kept(table, ask, servers));
      StepKeepsInv(old(table), Answered(ask, servers), table);
    }

    method Close(who: Who)
      requires Valid() && Plain(who)
      modifies this`agents, this`pending, this`table
      ensures Valid() && Step(old(table), Closed(who), table)
    {
      hide Key, Plain, AgentKey, Keyed, AgentsKeyed, Inv;
      AgentsChange(agents, table.agents, who, "");
      KeyedClose(pending, table.pending, who);
      var ours := AgentKey(who) + "#";
      agents := agents - {AgentKey(who)};
      pending := map key | key in pending && !(ours <= key) :: pending[key];
      table := table.(agents := table.agents - {who},
                      pending := map ask | ask in table.pending && ask.0 != who :: table.pending[ask]);
      StepKeepsInv(old(table), Closed(who), table);
    }

    method Detach()
      requires Valid()
      modifies this`agents, this`pending, this`table
      ensures Valid() && Step(old(table), Detached, table)
    {
      hide Inv;
      agents, pending := map[], map[];
      table := table.(agents := map[], pending := map[]);
      StepKeepsInv(old(table), Detached, table);
    }
  }
}
