/** A server's session, as the window sees it: its start arrives as a result, its end as an
    event, and nothing orders the two. */
module Lifecycle {
  import opened Json

  datatype Status = Off | Connecting | Connected | Error

  /** What a session's watch cell holds, and what a state-change event carries. */
  datatype ConnectionState = Starting | Up | Disconnected | Failed {
    predicate IsEnd() { Disconnected? || Failed? }
  }

  /** An event on its way to the window; `Other` carries no state change. */
  datatype Event = Change(state: ConnectionState) | Other

  /** How a connect ended: the session, whose cell is read when the result lands, or not. */
  datatype Outcome = Opened | NotOpened | Stopped

  /** What the window keeps of a server. A session is named by the generation that opened it. */
  datatype Entry = Entry(status: Status, session: Option<nat>, generation: nat, oauth: bool)

  // --- What each update does ---

  function Connect(e: Entry): Entry {
    e.(session := None, generation := e.generation + 1, status := Connecting)
  }

  function Disconnect(e: Entry): Entry {
    e.(session := None, generation := e.generation + 1, status := Off)
  }

  /** A request's credentials were refused. */
  function Refuse(e: Entry): Entry {
    if !e.oauth || !e.status.Connected? then e
    else e.(session := None, generation := e.generation + 1, status := Error)
  }

  /** The result of the connect that is generation `g` lands; `cell` is the session's state now. */
  function Land(e: Entry, g: nat, outcome: Outcome, cell: ConnectionState): Entry {
    if e.generation != g then e
    else match outcome
      case Opened => if cell != Up then e.(status := Error) else e.(session := Some(g), status := Connected)
      case NotOpened => e.(status := Error)
      case Stopped => e.(status := Error)
  }

  function File(e: Entry, event: Event): Entry {
    match event
    case Change(state) =>
      if state.IsEnd() && e.status.Connected?
      then e.(status := if state.Failed? then Error else Off, session := None) else e
    case Other => e
  }

  function FileAll(e: Entry, batch: seq<Event>): Entry
    decreases |batch|
  {
    if batch == [] then e else FileAll(File(e, batch[0]), batch[1..])
  }

  /** A batch of the events of generation `g`. */
  function Apply(e: Entry, g: nat, batch: seq<Event>): Entry {
    if e.generation != g then e else FileAll(e, batch)
  }

  class ServerEntry {
    var status: Status
    var session: Option<nat>
    var generation: nat
    const oauth: bool

    function View(): Entry
      reads this
    {
      Entry(status, session, generation, oauth)
    }

    constructor (oauth: bool)
      ensures View() == Entry(Off, None, 0, oauth)
    {
      this.oauth := oauth;
      status, session, generation := Off, None, 0;
    }

    /** Returns the session to close, if one was stored. */
    method StartConnect() returns (close: Option<nat>)
      modifies this
      ensures View() == Connect(old(View())) && close == old(session)
    {
      close := session;
      session := None;
      generation := generation + 1;
      status := Connecting;
    }

    method Close() returns (close: Option<nat>)
      modifies this
      ensures View() == Disconnect(old(View())) && close == old(session)
    {
      generation := generation + 1;
      close := session;
      session := None;
      status := Off;
    }

    method SessionRefused() returns (close: Option<nat>)
      modifies this
      ensures View() == Refuse(old(View()))
      ensures close == if old(oauth && status.Connected?) then old(session) else None
    {
      close := None;
      if !oauth || status != Connected {
        return;
      }
      generation := generation + 1;
      close := session;
      session := None;
      status := Error;
    }

    method ConnectLanded(g: nat, outcome: Outcome, cell: ConnectionState)
      modifies this
      ensures View() == Land(old(View()), g, outcome, cell)
    {
      if generation != g {
        return;
      }
      match outcome
      case Opened =>
        if cell != Up {
          status := Error;
        } else {
          session := Some(g);
          status := Connected;
        }
      case NotOpened => status := Error;
      case Stopped => status := Error;
    }

    method ApplyEvents(g: nat, batch: seq<Event>)
      modifies this
      ensures View() == Apply(old(View()), g, batch)
    {
      if generation != g {
        return;
      }
      for i := 0 to |batch|
        invariant generation == g
        invariant FileAll(old(View()), batch) == FileAll(View(), batch[i..])
      {
        var event := batch[i];
        if event.Change? && event.state.IsEnd() && status == Connected {
          status := if event.state.Failed? then Error else Off;
          session := None;
        }
        assert batch[i..][1..] == batch[i + 1..];
      }
    }
  }

  // --- The tasks on the runtime ---

  /** A task that notices the end of a session. */
  datatype Watcher =
    | Watching
    | Noticed(next: ConnectionState)   // the service returned; the cell is about to be read
    | Decided(next: ConnectionState)   // the cell was not `Failed`; about to be written
    | Announcing(next: ConnectionState) // written; the event is about to be emitted
    | Done

  datatype Task = Opening | Reading | Reported(outcome: Outcome) | Landed

  /** One connection attempt: its connect task, whether a session started, the session's cell, the
      two tasks that watch it, and its events not filed yet, oldest first. */
  datatype Attempt = Attempt(task: Task, up: bool, cell: ConnectionState, wait: Watcher, keepalive: Watcher,
                             queue: seq<Event>)

  const STARTED := Attempt(Opening, false, Starting, Watching, Watching, [])

  /** The window's entry, and every attempt by its generation. */
  datatype World = World(entry: Entry, attempts: map<nat, Attempt>)

  datatype Action =
    | DoConnect
    | DoDisconnect
    | DoRefuse(g: nat)                    // a request made in session `g` was refused
    | Starts(g: nat)
    | StartFails(g: nat)
    | Finishes(g: nat, outcome: Outcome)  // the lists are read, or could not be, or their reader stopped
    | Lands(g: nat)
    | ServiceEnds(g: nat, next: ConnectionState)
    | WaitReads(g: nat)
    | WaitWrites(g: nat)
    | WaitEmits(g: nat)
    | KeepaliveWrites(g: nat)
    | KeepaliveEmits(g: nat)
    | KeepaliveStops(g: nat)
    | Emits(g: nat)                       // any event that is no end
    | Files(g: nat, n: nat)               // the `n` oldest events are filed in one update

  predicate Enabled(w: World, action: Action) {
    match action
    case DoConnect => true
    case DoDisconnect => true
    case DoRefuse(g) => g in w.attempts && w.attempts[g].up
    case Starts(g) => g in w.attempts && w.attempts[g].task.Opening?
    case StartFails(g) => g in w.attempts && w.attempts[g].task.Opening?
    case Finishes(g, outcome) =>
      g in w.attempts && (w.attempts[g].task.Reading? || (w.attempts[g].task.Opening? && outcome.Stopped?))
    case Lands(g) => g in w.attempts && w.attempts[g].task.Reported?
    case ServiceEnds(g, next) => g in w.attempts && w.attempts[g].up && w.attempts[g].wait.Watching? && next.IsEnd()
    case WaitReads(g) => g in w.attempts && w.attempts[g].wait.Noticed?
    case WaitWrites(g) => g in w.attempts && w.attempts[g].wait.Decided?
    case WaitEmits(g) => g in w.attempts && w.attempts[g].wait.Announcing?
    case KeepaliveWrites(g) => g in w.attempts && w.attempts[g].up && w.attempts[g].keepalive.Watching?
    case KeepaliveEmits(g) => g in w.attempts && w.attempts[g].keepalive.Announcing?
    case KeepaliveStops(g) => g in w.attempts && w.attempts[g].keepalive.Watching?
    case Emits(g) => g in w.attempts
    case Files(g, n) => g in w.attempts && 0 < n <= |w.attempts[g].queue|
  }

  function Put(w: World, g: nat, attempt: Attempt): World {
    w.(attempts := w.attempts[g := attempt])
  }

  function Next(w: World, action: Action): World
    requires Enabled(w, action)
  {
    match action
    case DoConnect =>
      var e := Connect(w.entry);
      World(e, w.attempts[e.generation := STARTED])
    case DoDisconnect => w.(entry := Disconnect(w.entry))
    case DoRefuse(_) => w.(entry := Refuse(w.entry))
    case Starts(g) => Put(w, g, w.attempts[g].(task := Reading, up := true, cell := Up))
    case StartFails(g) =>
      var x := w.attempts[g];
      Put(w, g, x.(task := Reported(NotOpened), cell := Failed, queue := x.queue + [Change(Failed)]))
    case Finishes(g, outcome) => Put(w, g, w.attempts[g].(task := Reported(outcome)))
    case Lands(g) =>
      var x := w.attempts[g];
      World(Land(w.entry, g, x.task.outcome, x.cell), w.attempts[g := x.(task := Landed)])
    case ServiceEnds(g, next) => Put(w, g, w.attempts[g].(wait := Noticed(next)))
    case WaitReads(g) =>
      var x := w.attempts[g];
      Put(w, g, x.(wait := if x.cell.Failed? then Done else Decided(x.wait.next)))
    case WaitWrites(g) =>
      var x := w.attempts[g];
      Put(w, g, x.(cell := x.wait.next, wait := Announcing(x.wait.next)))
    case WaitEmits(g) =>
      var x := w.attempts[g];
      Put(w, g, x.(wait := Done, queue := x.queue + [Change(x.wait.next)]))
    case KeepaliveWrites(g) => Put(w, g, w.attempts[g].(cell := Failed, keepalive := Announcing(Failed)))
    case KeepaliveEmits(g) =>
      var x := w.attempts[g];
      Put(w, g, x.(keepalive := Done, queue := x.queue + [Change(Failed)]))
    case KeepaliveStops(g) => Put(w, g, w.attempts[g].(keepalive := Done))
    case Emits(g) => Put(w, g, w.attempts[g].(queue := w.attempts[g].queue + [Other]))
    case Files(g, n) =>
      var x := w.attempts[g];
      World(Apply(w.entry, g, x.queue[..n]), w.attempts[g := x.(queue := x.queue[n..])])
  }

  /** A run: the worlds it goes through, starting with a server just added. */
  ghost predicate Run(trace: seq<World>, actions: seq<Action>) {
    && |trace| == |actions| + 1
    && trace[0].entry.status.Off? && trace[0].entry.session == None && trace[0].attempts == map[]
    && forall i :: 0 <= i < |actions| ==> Enabled(trace[i], actions[i]) && trace[i + 1] == Next(trace[i], actions[i])
  }

  // --- What every world keeps ---

  predicate HasEnd(queue: seq<Event>) {
    exists e :: e in queue && e.Change? && e.state.IsEnd()
  }

  /** The session of this attempt has ended, whether or not its cell says so yet. */
  predicate Over(x: Attempt) {
    x.cell.IsEnd() || !x.wait.Watching?
  }

  /** An end event is queued, or a task is about to emit one. */
  predicate EndIsComing(x: Attempt) {
    HasEnd(x.queue) || x.keepalive.Announcing? || (!x.wait.Watching? && !x.wait.Done?)
  }

  /** Nothing says a session ended that has not. */
  predicate Truthful(x: Attempt) {
    && (HasEnd(x.queue) || x.keepalive.Announcing? || x.wait.Announcing? || x.wait.Done? ==> x.cell.IsEnd())
    && (!x.wait.Watching? && !x.wait.Done? ==> x.wait.next.IsEnd())
    && (x.task.Opening? ==> x.cell == Starting && !x.up)
    && (!x.up ==> x.wait.Watching? && !x.keepalive.Announcing?)
  }

  /** Once the cell holds an end, the event that says so is not lost. */
  predicate CellIsAnnounced(x: Attempt) {
    x.cell.IsEnd() ==> HasEnd(x.queue) || x.keepalive.Announcing? || x.wait.Announcing?
  }

  ghost predicate Inv(w: World) {
    var e := w.entry;
    && (e.status.Connected? <==> e.session.Some?)
    && (e.session.Some? ==> e.session.value == e.generation)
    && (forall g :: g in w.attempts ==> g <= e.generation && Truthful(w.attempts[g]))
    && (e.status.Connected? ==>
          && e.generation in w.attempts
          && w.attempts[e.generation].task.Landed?
          && CellIsAnnounced(w.attempts[e.generation]))
  }

  lemma {:induction false} FilingWithoutEnd(e: Entry, batch: seq<Event>)
    requires !HasEnd(batch)
    ensures FileAll(e, batch) == e
    decreases |batch|
  {
    if batch != [] {
      assert batch[0] in batch;
      assert !HasEnd(batch[1..]);
      FilingWithoutEnd(e, batch[1..]);
    }
  }

  lemma {:induction false} FilingAnEnd(e: Entry, batch: seq<Event>)
    ensures var f := FileAll(e, batch);
            && f.generation == e.generation && f.oauth == e.oauth
            && (!e.status.Connected? ==> f == e)
            && (e.status.Connected? && HasEnd(batch) ==>
                  !f.status.Connected? && !f.status.Connecting? && f.session == None)
    decreases |batch|
  {
    if batch != [] {
      FilingAnEnd(File(e, batch[0]), batch[1..]);
      if HasEnd(batch) && !HasEnd([batch[0]]) {
        var x :| x in batch && x.Change? && x.state.IsEnd();
        assert batch[0] in [batch[0]];
        assert x in batch[1..];
      }
    }
  }

  /** Events filed in several batches do what they do in one. */
  lemma {:induction false} FilingInParts(e: Entry, x: seq<Event>, y: seq<Event>)
    ensures FileAll(e, x + y) == FileAll(FileAll(e, x), y)
    decreases |x|
  {
    if x == [] {
      assert x + y == y;
    } else {
      FilingInParts(File(e, x[0]), x[1..], y);
      assert (x + y)[1..] == x[1..] + y;
    }
  }

  /** A connected server is let go of by the first end of its session, however the events are
      batched, and shown as that end says: failed, or off. */
  lemma TheFirstEndDecides(e: Entry, before: seq<Event>, end: Event, after: seq<Event>)
    requires e.status.Connected? && !HasEnd(before) && end.Change? && end.state.IsEnd()
    ensures FileAll(e, before + [end] + after)
         == e.(status := if end.state.Failed? then Error else Off, session := None)
  {
    FilingInParts(e, before + [end], after);
    FilingInParts(e, before, [end]);
    FilingWithoutEnd(e, before);
    assert [end][1..] == [] && FileAll(e, [end]) == FileAll(File(e, end), []);
    FilingAnEnd(File(e, end), after);
  }

  lemma HasEndParts(x: seq<Event>, y: seq<Event>)
    ensures HasEnd(x + y) <==> HasEnd(x) || HasEnd(y)
  {
    if HasEnd(x) {
      var e :| e in x && e.Change? && e.state.IsEnd();
      assert e in x + y;
    }
    if HasEnd(y) {
      var e :| e in y && e.Change? && e.state.IsEnd();
      assert e in x + y;
    }
  }

  lemma HasEndOne(event: Event)
    ensures HasEnd([event]) <==> event.Change? && event.state.IsEnd()
  {
    assert event in [event];
  }

  lemma FilesKeepInv(w: World, g: nat, n: nat)
    requires Inv(w) && Enabled(w, Files(g, n))
    ensures Inv(Next(w, Files(g, n)))
  {
    var x := w.attempts[g];
    var (now, later) := (x.queue[..n], x.queue[n..]);
    assert x.queue == now + later;
    HasEndParts(now, later);
    if g == w.entry.generation {
      FilingAnEnd(w.entry, now);
      if !HasEnd(now) {
        FilingWithoutEnd(w.entry, now);
      }
    }
  }

  lemma NextKeepsInv(w: World, action: Action)
    requires Inv(w) && Enabled(w, action)
    ensures Inv(Next(w, action))
  {
    match action {
      case Files(g, n) => FilesKeepInv(w, g, n);
      case StartFails(g) =>
        HasEndParts(w.attempts[g].queue, [Change(Failed)]);
      case WaitEmits(g) =>
        HasEndParts(w.attempts[g].queue, [Change(w.attempts[g].wait.next)]);
        HasEndOne(Change(w.attempts[g].wait.next));
      case KeepaliveEmits(g) =>
        HasEndParts(w.attempts[g].queue, [Change(Failed)]);
        HasEndOne(Change(Failed));
      case Emits(g) =>
        HasEndParts(w.attempts[g].queue, [Other]);
        HasEndOne(Other);
      case _ =>
    }
  }

  lemma {:induction false} RunKeepsInv(trace: seq<World>, actions: seq<Action>, i: nat)
    requires Run(trace, actions) && i < |trace|
    ensures Inv(trace[i])
  {
    if i > 0 {
      RunKeepsInv(trace, actions, i - 1);
      NextKeepsInv(trace[i - 1], actions[i - 1]);
    }
  }

  // --- What every run promises ---

  /** However starts, ends and updates interleave: a server shown connected whose session has ended
      is about to hear of it. */
  lemma NoLostEnd(trace: seq<World>, actions: seq<Action>, i: nat)
    requires Run(trace, actions) && i < |trace|
    requires trace[i].entry.status.Connected?
    ensures trace[i].entry.generation in trace[i].attempts
    ensures Over(trace[i].attempts[trace[i].entry.generation]) ==>
              EndIsComing(trace[i].attempts[trace[i].entry.generation])
  {
    RunKeepsInv(trace, actions, i);
  }

  /** A session is stored exactly while the server is connected, and it is the current one. */
  lemma SessionMeansConnected(trace: seq<World>, actions: seq<Action>, i: nat)
    requires Run(trace, actions) && i < |trace|
    ensures trace[i].entry.session == if trace[i].entry.status.Connected? then Some(trace[i].entry.generation) else None
  {
    RunKeepsInv(trace, actions, i);
  }

  /** A connected server is only let go of by an event when its session did end. */
  lemma NoFalseEnd(trace: seq<World>, actions: seq<Action>, i: nat)
    requires Run(trace, actions) && i < |actions| && actions[i].Files?
    requires trace[i].entry.status.Connected? && !trace[i + 1].entry.status.Connected?
    ensures actions[i].g == trace[i].entry.generation
    ensures trace[i].attempts[actions[i].g].cell.IsEnd()
  {
    RunKeepsInv(trace, actions, i);
    var x := trace[i].attempts[actions[i].g];
    var (now, later) := (x.queue[..actions[i].n], x.queue[actions[i].n..]);
    assert x.queue == now + later;
    HasEndParts(now, later);
    if !HasEnd(now) {
      FilingWithoutEnd(trace[i].entry, now);
    }
  }

  /** The window shows connecting exactly while the attempt of the current generation has not landed. */
  ghost predicate Underway(w: World) {
    w.entry.status.Connecting? <==> w.entry.generation in w.attempts && !w.attempts[w.entry.generation].task.Landed?
  }

  lemma NextKeepsUnderway(w: World, action: Action)
    requires Inv(w) && Underway(w) && Enabled(w, action)
    ensures Underway(Next(w, action))
  {
    match action {
      case Files(g, n) =>
        FilingAnEnd(w.entry, w.attempts[g].queue[..n]);
        if !HasEnd(w.attempts[g].queue[..n]) {
          FilingWithoutEnd(w.entry, w.attempts[g].queue[..n]);
        }
      case _ =>
    }
  }

  /** No server is left connecting: in every run, one that is shown connecting has an attempt whose
      result is still to land. */
  lemma {:induction false} ConnectingMeansUnderway(trace: seq<World>, actions: seq<Action>, i: nat)
    requires Run(trace, actions) && i < |trace|
    ensures Underway(trace[i])
  {
    if i > 0 {
      ConnectingMeansUnderway(trace, actions, i - 1);
      RunKeepsInv(trace, actions, i - 1);
      NextKeepsUnderway(trace[i - 1], actions[i - 1]);
    }
  }

  /** A result of the current generation that lands is always shown: connected to its session if that
      opened and has not ended meanwhile, and failed otherwise. */
  lemma WhatALandingShows(trace: seq<World>, actions: seq<Action>, i: nat)
    requires Run(trace, actions) && i < |actions| && actions[i].Lands?
    requires actions[i].g == trace[i].entry.generation
    ensures var (x, e) := (trace[i].attempts[actions[i].g], trace[i].entry);
            trace[i + 1].entry == if x.task.outcome.Opened? && x.cell == Up
                                  then Entry(Connected, Some(e.generation), e.generation, e.oauth)
                                  else Entry(Error, None, e.generation, e.oauth)
  {
    ConnectingMeansUnderway(trace, actions, i);
    RunKeepsInv(trace, actions, i);
  }

  /** What the other updates show. Nothing else changes what is shown. */
  lemma WhatTheOthersShow(trace: seq<World>, actions: seq<Action>, i: nat)
    requires Run(trace, actions) && i < |actions|
    ensures var (e, f, action) := (trace[i].entry, trace[i + 1].entry, actions[i]);
            && (action.DoConnect? ==> f == Entry(Connecting, None, e.generation + 1, e.oauth))
            && (action.DoDisconnect? ==> f == Entry(Off, None, e.generation + 1, e.oauth))
            && (action.DoRefuse? && e.oauth && e.session.Some? ==> f == Entry(Error, None, e.generation + 1, true))
            && (action.DoRefuse? && !(e.oauth && e.session.Some?) ==> f == e)
            && (!action.DoConnect? && !action.DoDisconnect? && !action.DoRefuse? && !action.Lands? && !action.Files? ==>
                  f == e)
  {
    RunKeepsInv(trace, actions, i);
  }

  /** The cell holds `Up` exactly while the session has started and no end was written. */
  lemma {:induction false} CellIsUp(trace: seq<World>, actions: seq<Action>, i: nat, g: nat)
    requires Run(trace, actions) && i < |trace| && g in trace[i].attempts
    ensures trace[i].attempts[g].cell == Up <==> trace[i].attempts[g].up && !trace[i].attempts[g].cell.IsEnd()
  {
    if i > 0 {
      RunKeepsInv(trace, actions, i - 1);
      if g in trace[i - 1].attempts {
        CellIsUp(trace, actions, i - 1, g);
      }
    }
  }

  /** Something made the session of attempt `g` end with `state`: its start or a ping failed, or the service
      ended with just that. */
  ghost predicate Caused(actions: seq<Action>, g: nat, state: ConnectionState) {
    exists j :: 0 <= j < |actions|
      && ((state.Failed? && (actions[j] == StartFails(g) || actions[j] == KeepaliveWrites(g)))
          || actions[j] == ServiceEnds(g, state))
  }

  /** Every end an attempt's cell, tasks and queue speak of has such a cause. */
  ghost predicate AllCaused(x: Attempt, actions: seq<Action>, g: nat) {
    && (x.cell.IsEnd() ==> Caused(actions, g, x.cell))
    && (!x.wait.Watching? && !x.wait.Done? ==> Caused(actions, g, x.wait.next))
    && (x.keepalive.Announcing? ==> x.keepalive.next.Failed? && Caused(actions, g, Failed))
    && (forall e :: e in x.queue && e.Change? && e.state.IsEnd() ==> Caused(actions, g, e.state))
  }

  lemma CausedMore(actions: seq<Action>, action: Action, g: nat, state: ConnectionState)
    ensures Caused(actions, g, state) ==> Caused(actions + [action], g, state)
    ensures action == ServiceEnds(g, state) ==> Caused(actions + [action], g, state)
    ensures state.Failed? && (action == StartFails(g) || action == KeepaliveWrites(g)) ==>
              Caused(actions + [action], g, state)
  {
    var more := actions + [action];
    if Caused(actions, g, state) {
      var j :| 0 <= j < |actions|
        && ((state.Failed? && (actions[j] == StartFails(g) || actions[j] == KeepaliveWrites(g)))
            || actions[j] == ServiceEnds(g, state));
      assert more[j] == actions[j];
    }
    assert more[|actions|] == action;
  }

  lemma StepKeepsCauses(w: World, before: seq<Action>, action: Action, g: nat)
    requires Enabled(w, action) && g in Next(w, action).attempts
    requires g in w.attempts ==> AllCaused(w.attempts[g], before, g)
    ensures AllCaused(Next(w, action).attempts[g], before + [action], g)
  {
    hide Caused;
    forall state { CausedMore(before, action, g, state); }
    if action.Files? && action.g == g {
      var x := w.attempts[g];
      assert forall e :: e in x.queue[action.n..] ==> e in x.queue;
    }
  }

  /** In every run, whatever says that a session ended, and how, is so: the cell, and every event that is
      queued or about to be. */
  lemma {:induction false} EndsAreCaused(trace: seq<World>, actions: seq<Action>, i: nat, g: nat)
    requires Run(trace, actions) && i < |trace| && g in trace[i].attempts
    ensures AllCaused(trace[i].attempts[g], actions[..i], g)
  {
    if i > 0 {
      if g in trace[i - 1].attempts {
        EndsAreCaused(trace, actions, i - 1, g);
      }
      StepKeepsCauses(trace[i - 1], actions[..i - 1], actions[i - 1], g);
      assert actions[..i] == actions[..i - 1] + [actions[i - 1]];
    }
  }

  /** A failure is not taken back: once the cell says so before the wait task has decided, it goes on saying
      so, however the service ended. */
  lemma {:induction false} FailureIsKept(trace: seq<World>, actions: seq<Action>, i: nat, k: nat, g: nat)
    requires Run(trace, actions) && i <= k < |trace| && g in trace[i].attempts
    requires var x := trace[i].attempts[g]; x.cell.Failed? && !x.wait.Decided? && !x.wait.Announcing?
    ensures g in trace[k].attempts
    ensures var x := trace[k].attempts[g]; x.cell.Failed? && !x.wait.Decided? && !x.wait.Announcing?
  {
    if i < k {
      FailureIsKept(trace, actions, i, k - 1, g);
      RunKeepsInv(trace, actions, k - 1);
    }
  }

  /** A task that emitted its event, or that has none to emit, is done; a start that failed says so in the
      cell and in an event; events are filed once, and those not filed yet stay in order. */
  lemma TasksFinish(w: World, action: Action)
    requires Enabled(w, action)
    ensures action.KeepaliveEmits? || action.KeepaliveStops? ==> Next(w, action).attempts[action.g].keepalive.Done?
    ensures action.WaitEmits? ==> Next(w, action).attempts[action.g].wait.Done?
    ensures action.KeepaliveEmits? || action.WaitEmits? ==>
              |Next(w, action).attempts[action.g].queue| == |w.attempts[action.g].queue| + 1
    ensures action.StartFails? ==>
              var (x, y) := (w.attempts[action.g], Next(w, action).attempts[action.g]);
              y.cell.Failed? && y.queue == x.queue + [Change(Failed)] && y.task == Reported(NotOpened)
    ensures action.Files? ==>
              w.attempts[action.g].queue[..action.n] + Next(w, action).attempts[action.g].queue
              == w.attempts[action.g].queue
    ensures action.Emits? ==> Next(w, action).attempts[action.g].queue == w.attempts[action.g].queue + [Other]
  {
  }

  /** The attempt an action is a step of. */
  function AttemptOf(action: Action): Option<nat> {
    match action
    case DoConnect => None
    case DoDisconnect => None
    case DoRefuse(g) => Some(g)
    case Starts(g) => Some(g)
    case StartFails(g) => Some(g)
    case Finishes(g, _) => Some(g)
    case Lands(g) => Some(g)
    case ServiceEnds(g, _) => Some(g)
    case WaitReads(g) => Some(g)
    case WaitWrites(g) => Some(g)
    case WaitEmits(g) => Some(g)
    case KeepaliveWrites(g) => Some(g)
    case KeepaliveEmits(g) => Some(g)
    case KeepaliveStops(g) => Some(g)
    case Emits(g) => Some(g)
    case Files(g, _) => Some(g)
  }

  /** A step of an older attempt changes what the window shows exactly when it is a refusal, which
      carries no generation, and the server now connected signs in with OAuth. */
  lemma OlderAttemptsChangeNothing(w: World, action: Action)
    requires Inv(w) && Enabled(w, action)
    requires AttemptOf(action).Some? && AttemptOf(action).value != w.entry.generation
    ensures Next(w, action).entry != w.entry <==> action.DoRefuse? && w.entry.oauth && w.entry.status.Connected?
  {
  }

  /** A server connected and connected again: the session of generation `g` is stored. */
  lemma ConnectingAgain(w: World) returns (trace: seq<World>, actions: seq<Action>)
    ensures var g := w.entry.generation + 1;
            && actions == [DoConnect, Starts(g), Finishes(g, Opened), Lands(g)]
            && |trace| == 5 && trace[0] == w
            && (forall i :: 0 <= i < 4 ==> Enabled(trace[i], actions[i]) && trace[i + 1] == Next(trace[i], actions[i]))
            && trace[4].entry == Entry(Connected, Some(g), g, w.entry.oauth)
            && trace[4].attempts == w.attempts[g := Attempt(Landed, true, Up, Watching, Watching, [])]
  {
    var g := w.entry.generation + 1;
    actions := [DoConnect, Starts(g), Finishes(g, Opened), Lands(g)];
    var w1 := Next(w, DoConnect);
    var w2 := Next(w1, Starts(g));
    var w3 := Next(w2, Finishes(g, Opened));
    trace := [w, w1, w2, w3, Next(w3, Lands(g))];
    assert trace[4].attempts == w.attempts[g := Attempt(Landed, true, Up, Watching, Watching, [])];
  }

  /** A run that comes to it: a server that signs in with OAuth is connected again, and a request still
      under way in the session before is refused: the new session is let go of. */
  lemma ALateRefusalEndsTheNext() returns (trace: seq<World>, actions: seq<Action>)
    ensures Run(trace, actions) && |actions| == 9 && actions[8] == DoRefuse(1)
    ensures trace[8].entry == Entry(Connected, Some(2), 2, true)
    ensures trace[9].entry == Entry(Error, None, 3, true)
  {
    hide Next, Enabled;
    var first, opening := ConnectingAgain(World(Entry(Off, None, 0, true), map[]));
    var second, again := ConnectingAgain(first[4]);
    actions := opening + again + [DoRefuse(1)];
    assert Enabled(second[4], DoRefuse(1)) && Next(second[4], DoRefuse(1)).entry == Entry(Error, None, 3, true) by {
      RefusedNow(second[4]);
    }
    trace := first[..4] + second + [Next(second[4], DoRefuse(1))];
    forall i | 0 <= i < 9 ensures Enabled(trace[i], actions[i]) && trace[i + 1] == Next(trace[i], actions[i]) {
      assert i < 4 ==> trace[i] == first[i] && actions[i] == opening[i];
      assert 4 <= i < 8 ==> trace[i] == second[i - 4] && trace[i + 1] == second[i - 3] && actions[i] == again[i - 4];
    }
  }

  lemma RefusedNow(w: World)
    requires w.entry.oauth && w.entry.status.Connected? && 1 in w.attempts && w.attempts[1].up
    ensures Enabled(w, DoRefuse(1))
    ensures Next(w, DoRefuse(1)).entry == Entry(Error, None, w.entry.generation + 1, true)
  {
  }

  /** Carries out `actions`, each of which must be enabled when its turn comes. */
  ghost predicate Leads(w: World, actions: seq<Action>, end: World)
    decreases |actions|
  {
    if actions == [] then end == w
    else Enabled(w, actions[0]) && Leads(Next(w, actions[0]), actions[1..], end)
  }

  /** How many steps the wait task still has to take. */
  function WaitSteps(x: Attempt): nat {
    match x.wait
    case Noticed(_) => 3
    case Decided(_) => 2
    case Announcing(_) => 1
    case _ => 0
  }

  /** When those that watch it are let finish and the queue is filed, a connected server whose session is over
      is shown connected no more. */
  lemma EndReachesTheWindow(w: World) returns (actions: seq<Action>, end: World)
    requires Inv(w) && w.entry.status.Connected? && Over(w.attempts[w.entry.generation])
    ensures Leads(w, actions, end)
    ensures !end.entry.status.Connected? && end.entry.session == None && end.entry.generation == w.entry.generation
    ensures |actions| <= 5
  {
    var g := w.entry.generation;
    var v, first := AfterKeepalive(w);
    var u, second := AfterWait(v);
    var x := u.attempts[g];
    end := Next(u, Files(g, |x.queue|));
    assert x.queue[..|x.queue|] == x.queue;
    FilingAnEnd(u.entry, x.queue);
    actions := first + (second + [Files(g, |x.queue|)]);
    LeadsOne(u, Files(g, |x.queue|));
    LeadsFurther(v, second, u, [Files(g, |x.queue|)], end);
    LeadsFurther(w, first, v, second + [Files(g, |x.queue|)], end);
  }

  /** Once its task reports, as it always can, a server shown connecting is so no more. */
  lemma ConnectingEnds(w: World) returns (actions: seq<Action>, end: World)
    requires Inv(w) && Underway(w) && w.entry.status.Connecting?
    ensures Leads(w, actions, end) && 0 < |actions| <= 2
    ensures end.entry.generation == w.entry.generation && (end.entry.status.Connected? || end.entry.status.Error?)
  {
    var g := w.entry.generation;
    var v, first := w, [];
    if !w.attempts[g].task.Reported? {
      v, first := Next(w, Finishes(g, Stopped)), [Finishes(g, Stopped)];
      LeadsOne(w, Finishes(g, Stopped));
    }
    end := Next(v, Lands(g));
    actions := first + [Lands(g)];
    LeadsOne(v, Lands(g));
    LeadsFurther(w, first, v, [Lands(g)], end);
  }

  lemma LeadsOne(w: World, action: Action)
    requires Enabled(w, action)
    ensures Leads(w, [action], Next(w, action))
  {
    assert [action][1..] == [];
  }

  lemma {:induction false} LeadsFurther(w: World, first: seq<Action>, v: World, second: seq<Action>, u: World)
    requires Leads(w, first, v) && Leads(v, second, u)
    ensures Leads(w, first + second, u)
    decreases |first|
  {
    if first == [] {
      assert first + second == second;
    } else {
      LeadsFurther(Next(w, first[0]), first[1..], v, second, u);
      assert (first + second)[1..] == first[1..] + second;
    }
  }

  lemma AfterKeepalive(w: World) returns (v: World, actions: seq<Action>)
    requires Inv(w) && w.entry.status.Connected? && Over(w.attempts[w.entry.generation])
    ensures Inv(v) && v.entry == w.entry && Over(v.attempts[w.entry.generation])
    ensures !v.attempts[w.entry.generation].keepalive.Announcing?
    ensures Leads(w, actions, v) && |actions| <= 1
  {
    var g := w.entry.generation;
    v, actions := w, [];
    if w.attempts[g].keepalive.Announcing? {
      v, actions := Next(w, KeepaliveEmits(g)), [KeepaliveEmits(g)];
      NextKeepsInv(w, KeepaliveEmits(g));
      LeadsOne(w, KeepaliveEmits(g));
    }
  }

  lemma AfterWait(w: World) returns (v: World, actions: seq<Action>)
    requires Inv(w) && w.entry.status.Connected? && Over(w.attempts[w.entry.generation])
    requires !w.attempts[w.entry.generation].keepalive.Announcing?
    ensures v.entry == w.entry && w.entry.generation in v.attempts && HasEnd(v.attempts[w.entry.generation].queue)
    ensures Leads(w, actions, v) && |actions| <= WaitSteps(w.attempts[w.entry.generation])
    decreases WaitSteps(w.attempts[w.entry.generation])
  {
    var g := w.entry.generation;
    v, actions := w, [];
    var action :=
      match w.attempts[g].wait
      case Noticed(_) => Some(WaitReads(g))
      case Decided(_) => Some(WaitWrites(g))
      case Announcing(_) => Some(WaitEmits(g))
      case _ => None;
    if action.Some? {
      NextKeepsInv(w, action.value);
      LeadsOne(w, action.value);
      var next := Next(w, action.value);
      v, actions := AfterWait(next);
      LeadsFurther(w, [action.value], next, actions, v);
      actions := [action.value] + actions;
    }
  }
}
