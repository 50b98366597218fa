/** The loop that pings a silent server: when it pings, and how soon a server that went away is
    noticed. Timers are ideal. */
module Keepalive {
  import opened Json
  import opened Inflight

  datatype Phase =
    | AtHead                                  // about to look at the clock
    | Sleeping(until: real)
    | Pinging(ping: string, deadline: real)
    | Failed
    | Stopped

  /** `log` is what went by so far and `heardAt` when the last message arrived. `idle` is history:
      the last time a message arrived, or something of ours other than a ping was in the server's
      hands, or the loop started. */
  datatype World = World(interval: real, now: real, heardAt: real, log: seq<Entry>, phase: Phase, idle: real)

  datatype Happening =
    | Elapses(time: real)
    | Hears(message: Message)
    | Says(message: Message)
    | GivesUp(id: string)
    | Wakes(ping: string)       // the loop looks at the clock; a ping would be sent under this id
    | TimesOut
    | Closes                    // the ping fails with the transport
    | Cancels

  predicate InHand(w: World) {
    exists key :: key in Tabled(w.log) && key.0.Inbound? && !(w.phase.Pinging? && key.1 == w.phase.ping)
  }

  predicate AnswersPing(w: World, message: Message) {
    w.phase.Pinging? && message == Reply(Some(w.phase.ping))
  }

  function Max(a: real, b: real): real {
    if a < b then b else a
  }

  function SaturatingSub(a: real, b: real): real {
    if a < b then 0.0 else a - b
  }

  function Noted(w: World, entry: Entry): World {
    w.(log := w.log + [entry])
  }

  /** What the loop does at its head. */
  function Checked(w: World, ping: string): World {
    var quiet := w.now - w.heardAt;
    if quiet < w.interval || AwaitsServer(Tabled(w.log)) then
      w.(phase := Sleeping(w.now + Max(SaturatingSub(w.interval, quiet), w.interval / 4.0)))
    else
      Noted(w, Said(Outbound, Request(ping, "ping"))).(phase := Pinging(ping, w.now + w.interval))
  }

  /** Time passes up to the next timer; a new request has an id that is not in use. */
  predicate Possible(w: World, h: Happening) {
    match h
    case Elapses(time) =>
      && time >= 0.0 && !w.phase.AtHead?
      && (w.phase.Sleeping? ==> w.now + time <= w.phase.until)
      && (w.phase.Pinging? ==> w.now + time <= w.phase.deadline)
    case Hears(_) => true
    case Says(message) => w.phase.Pinging? && message.Request? ==> message.id != w.phase.ping
    case GivesUp(id) => w.phase.Pinging? ==> id != w.phase.ping
    case Wakes(ping) =>
      && (w.phase.AtHead? || (w.phase.Sleeping? && w.now == w.phase.until))
      && (Inbound, ping) !in Tabled(w.log)
    case TimesOut => w.phase.Pinging? && w.now == w.phase.deadline
    case Closes => w.phase.Pinging?
    case Cancels => w.phase.Sleeping? || w.phase.Pinging?
  }

  function Busy(w: World): World {
    if InHand(w) then w.(idle := w.now) else w
  }

  function Step(w: World, h: Happening): World {
    if !Possible(w, h) then w
    else match h
      case Elapses(time) => Busy(w.(now := w.now + time))
      case Hears(message) =>
        Noted(w, Said(Inbound, message)).(heardAt := w.now, idle := w.now,
                                          phase := if AnswersPing(w, message) then AtHead else w.phase)
      case Says(message) => Busy(Noted(w, Said(Outbound, message)))
      case GivesUp(id) => Noted(w, GivenUp(id))
      case Wakes(ping) => Checked(w, ping)
      case TimesOut => w.(phase := Failed)
      case Closes => w.(phase := Stopped)
      case Cancels => w.(phase := Stopped)
  }

  function After(w: World, script: seq<Happening>): World {
    if script == [] then w else Step(After(w, script[..|script| - 1]), script[|script| - 1])
  }

  /** The loop starts on a connected session, at its head. */
  predicate Starts(w: World) {
    w.interval >= 0.0 && w.phase.AtHead? && w.heardAt <= w.now && w.idle == w.now
  }

  lemma AfterOne(w: World, script: seq<Happening>, i: nat)
    requires i < |script|
    ensures After(w, script[..i + 1]) == Step(After(w, script[..i]), script[i])
  {
    assert script[..i + 1][..i] == script[..i];
  }

  // --- What every run keeps ---

  predicate Runs(w: World) {
    !w.phase.Failed? && !w.phase.Stopped?
  }

  predicate Inv(w: World) {
    && w.interval >= 0.0 && w.heardAt <= w.idle <= w.now
    && (Runs(w) && InHand(w) ==> w.idle == w.now)
    && match w.phase
       case AtHead => w.now <= w.idle + w.interval * 1.25
       case Sleeping(until) => w.now <= until <= w.idle + w.interval * 1.25
       case Pinging(ping, deadline) =>
         w.now <= deadline <= w.idle + w.interval * 2.25 && (Inbound, ping) in Tabled(w.log)
       case _ => true
  }

  lemma TabledOne(log: seq<Entry>, entry: Entry)
    ensures Tabled(log + [entry]) == Inflight.Next(Tabled(log), entry)
  {
    assert (log + [entry])[..|log|] == log;
  }

  /** A ping the loop sent is not counted: the server is not at work for us because of it. */
  lemma PingIsNotInHand(w: World, ping: string, deadline: real)
    requires !AwaitsServer(Tabled(w.log))
    ensures var v := Noted(w, Said(Outbound, Request(ping, "ping"))).(phase := Pinging(ping, deadline));
            !InHand(v) && (Inbound, ping) in Tabled(v.log)
  {
    TabledOne(w.log, Said(Outbound, Request(ping, "ping")));
    hide Tabled;
  }

  lemma NotPingingInHand(w: World)
    requires !w.phase.Pinging?
    ensures InHand(w) <==> AwaitsServer(Tabled(w.log))
  {
    hide Tabled;
  }

  lemma CheckKeepsInv(w: World, ping: string)
    requires Inv(w) && Possible(w, Wakes(ping))
    ensures Inv(Checked(w, ping))
  {
    var v := Checked(w, ping);
    NotPingingInHand(w);
    if v.phase.Pinging? {
      PingIsNotInHand(w, ping, w.now + w.interval);
    } else {
      NotPingingInHand(v);
    }
    hide InHand, AwaitsServer, Tabled;
  }

  lemma HearKeepsInv(w: World, message: Message)
    requires Inv(w)
    ensures Inv(Step(w, Hears(message)))
  {
    TabledOne(w.log, Said(Inbound, message));
    hide Tabled, InHand;
  }

  lemma SayKeepsInv(w: World, message: Message)
    requires Inv(w) && Possible(w, Says(message))
    ensures Inv(Step(w, Says(message)))
  {
    TabledOne(w.log, Said(Outbound, message));
    hide Tabled;
  }

  lemma StepKeepsInv(w: World, h: Happening)
    requires Inv(w)
    ensures Inv(Step(w, h))
  {
    if Possible(w, h) {
      match h {
        case Hears(message) => HearKeepsInv(w, message);
        case Says(message) => SayKeepsInv(w, message);
        case Wakes(ping) => CheckKeepsInv(w, ping);
        case GivesUp(id) =>
          TabledOne(w.log, GivenUp(id));
          hide Tabled;
        case Elapses(time) => hide Tabled;
        case _ => hide InHand, Tabled;
      }
    }
  }

  lemma {:induction false} RunKeepsInv(w: World, script: seq<Happening>)
    requires Inv(w)
    ensures Inv(After(w, script)) && After(w, script).interval == w.interval
  {
    hide Inv, Possible, InHand;
    if script != [] {
      RunKeepsInv(w, script[..|script| - 1]);
      StepKeepsInv(After(w, script[..|script| - 1]), script[|script| - 1]);
    }
  }

  /** A loop that still runs has heard from the server, or known it at work for us, within the last
      nine quarters of the interval: a server silent for longer with nothing in hand has been failed. */
  lemma NoticedInTime(w: World, script: seq<Happening>)
    requires Starts(w)
    ensures var v := After(w, script); v.now > v.idle + w.interval * 2.25 ==> !Runs(v)
  {
    RunKeepsInv(w, script);
  }

  /** `idle` covers every moment something of ours was in hand, and every message heard. */
  lemma {:induction false} IdleCovers(w: World, script: seq<Happening>, k: nat)
    requires Starts(w) && k <= |script| && Runs(After(w, script[..k]))
    requires InHand(After(w, script[..k])) || (k > 0 && script[k - 1].Hears?) || k == 0
    ensures After(w, script).idle >= After(w, script[..k]).now
    decreases |script|
  {
    if k == |script| {
      assert script[..k] == script;
      RunKeepsInv(w, script);
      if k > 0 {
        assert script[..k - 1] == script[..|script| - 1];
      }
    } else {
      var n := |script| - 1;
      assert script[..n][..k] == script[..k];
      IdleCovers(w, script[..n], k);
      RunKeepsInv(w, script[..n]);
      IdleGrows(After(w, script[..n]), script[n]);
    }
  }

  lemma IdleGrows(w: World, h: Happening)
    requires Inv(w)
    ensures Step(w, h).idle >= w.idle
  {
    hide InHand;
  }

  /** A ping goes out only when no message has arrived for the whole interval and no request of ours is
      open. */
  lemma PingsOnlyInSilence(w: World, script: seq<Happening>, k: nat)
    requires Starts(w) && k < |script|
    requires After(w, script[..k + 1]).phase.Pinging? && !After(w, script[..k]).phase.Pinging?
    ensures var v := After(w, script[..k]);
            && script[k].Wakes? && After(w, script[..k + 1]).now == v.now
            && v.now - v.heardAt >= w.interval
            && (forall id :: !Open(v.log, Outbound, id))
            && (forall j :: 0 <= j < k && script[j].Hears? ==> After(w, script[..j]).now <= v.now - w.interval)
  {
    var v := After(w, script[..k]);
    AfterOne(w, script, k);
    RunKeepsInv(w, script[..k]);
    AwaitsWhatIsOpen(v.log);
    hide InHand, Tabled, Open;
    forall j | 0 <= j < k && script[j].Hears? ensures After(w, script[..j]).now <= v.heardAt {
      HeardAtCovers(w, script[..k], j);
      assert script[..k][..j] == script[..j];
    }
  }

  lemma {:induction false} HeardAtCovers(w: World, script: seq<Happening>, j: nat)
    requires Starts(w) && j < |script| && script[j].Hears?
    ensures After(w, script).heardAt >= After(w, script[..j]).now
    decreases |script|
  {
    var n := |script| - 1;
    if j < n {
      assert script[..n][..j] == script[..j];
      HeardAtCovers(w, script[..n], j);
      RunKeepsInv(w, script[..n]);
    }
  }

  /** Woken, the loop that does not ping sleeps for a quarter of the interval at least, and until the server
      has been silent for the whole of it. */
  lemma SleepsLongEnough(w: World, script: seq<Happening>, k: nat)
    requires Starts(w) && k < |script| && script[k].Wakes? && Possible(After(w, script[..k]), script[k])
    ensures var (v, u) := (After(w, script[..k]), After(w, script[..k + 1]));
            && u.now == v.now
            && (u.phase.Sleeping? ==>
                  && u.phase.until >= v.now + w.interval / 4.0 && u.phase.until >= v.heardAt + w.interval
                  && (u.phase.until == v.now + w.interval / 4.0 || u.phase.until == v.heardAt + w.interval))
            && (u.phase.Sleeping? || u.phase == Pinging(script[k].ping, v.now + w.interval))
  {
    AfterOne(w, script, k);
    StartsWithInv(w);
    RunKeepsInv(w, script[..k]);
    hide InHand, AwaitsServer, Tabled, Inv;
  }

  /** Everything that goes by is noted, and nothing else: what either side says, a ping the loop sends, and a
      request of ours given up on. */
  lemma WhatIsNoted(w: World, script: seq<Happening>, k: nat)
    requires k < |script| && Possible(After(w, script[..k]), script[k])
    ensures var (v, u) := (After(w, script[..k]), After(w, script[..k + 1]));
            u.log == v.log + match script[k]
                             case Hears(message) => [Said(Inbound, message)]
                             case Says(message) => [Said(Outbound, message)]
                             case GivesUp(id) => [GivenUp(id)]
                             case Wakes(ping) =>
                               if u.phase.Pinging? then [Said(Outbound, Request(ping, "ping"))] else []
                             case _ => []
  {
    AfterOne(w, script, k);
    hide InHand, AwaitsServer, Tabled;
  }

  /** How the loop ends: failed when a ping times out, stopped when it is told to or the transport is gone.
      Of what it hears, only the answer to its ping sends it back to its head. */
  lemma HowItEnds(w: World, script: seq<Happening>, k: nat)
    requires k < |script| && Possible(After(w, script[..k]), script[k])
    ensures var u := After(w, script[..k + 1]);
            && (script[k].TimesOut? ==> u.phase.Failed?)
            && (script[k].Closes? || script[k].Cancels? ==> u.phase.Stopped?)
            && (script[k].Hears? && AnswersPing(After(w, script[..k]), script[k].message) ==> u.phase.AtHead?)
            && (script[k].Hears? && !AnswersPing(After(w, script[..k]), script[k].message) ==>
                  u.phase == After(w, script[..k]).phase)
  {
    AfterOne(w, script, k);
    hide InHand, AwaitsServer, Tabled, Checked;
  }

  lemma StartsWithInv(w: World)
    requires Starts(w)
    ensures Inv(w)
  {
  }

  lemma PingStays(w: World, h: Happening)
    requires w.phase.Pinging? && Step(w, h).phase.Pinging?
    ensures Step(w, h).phase == w.phase
  {
    hide InHand, Tabled;
  }

  lemma PingStarts(w: World, h: Happening)
    requires !w.phase.Pinging? && Step(w, h).phase.Pinging?
    ensures h.Wakes? && Possible(w, h) && Step(w, h).phase == Pinging(h.ping, w.now + w.interval)
  {
    hide InHand, Tabled;
  }

  /** While a ping is out it is open, and was sent one interval before its deadline. */
  lemma {:induction false} PingWasSent(w: World, script: seq<Happening>) returns (k: nat)
    requires Starts(w) && After(w, script).phase.Pinging?
    ensures k < |script| && script[k] == Wakes(After(w, script).phase.ping)
    ensures Possible(After(w, script[..k]), script[k])
    ensures After(w, script[..k]).now + w.interval == After(w, script).phase.deadline
    ensures forall j :: k < j < |script| ==> After(w, script[..j]).phase == After(w, script).phase
  {
    hide Step, Possible, Inv;
    k := 0;
    var n := |script| - 1;
    if n >= 0 {
      var before := After(w, script[..n]);
      StartsWithInv(w);
      RunKeepsInv(w, script[..n]);
      if before.phase.Pinging? {
        PingStays(before, script[n]);
        k := PingWasSent(w, script[..n]);
        assert script[..n][..k] == script[..k];
        forall j | k < j < |script| ensures After(w, script[..j]).phase == After(w, script).phase {
          if j < n {
            assert script[..n][..j] == script[..j];
          }
        }
      } else {
        PingStarts(before, script[n]);
        k := n;
      }
    }
  }

  /** The session is failed only for a ping that was out for the whole interval without an answer. */
  lemma FailsOnlyUnanswered(w: World, script: seq<Happening>, k: nat) returns (asked: nat)
    requires Starts(w) && k < |script|
    requires After(w, script[..k + 1]).phase.Failed? && !After(w, script[..k]).phase.Failed?
    ensures var v := After(w, script[..k]);
            && v.phase.Pinging? && asked < k && script[asked] == Wakes(v.phase.ping)
            && After(w, script[..asked]).now + w.interval == v.now
            && forall j :: asked < j < k ==> script[j] != Hears(Reply(Some(v.phase.ping)))
  {
    hide Step, Inv, Starts;
    AfterOne(w, script, k);
    var v := After(w, script[..k]);
    FailsAtDeadline(v, script[k]);
    asked := PingWasSent(w, script[..k]);
    assert script[..k][..asked] == script[..asked];
    forall j | asked < j < k ensures script[j] != Hears(Reply(Some(v.phase.ping))) {
      AfterOne(w, script, j);
      assert script[..k][..j] == script[..j];
      assert j + 1 < k ==> script[..k][..j + 1] == script[..j + 1];
      AnswerEndsPing(After(w, script[..j]), script[j]);
    }
  }

  lemma FailsAtDeadline(w: World, h: Happening)
    requires !w.phase.Failed? && Step(w, h).phase.Failed?
    ensures w.phase.Pinging? && w.now == w.phase.deadline
  {
    hide InHand, Tabled;
  }

  lemma AnswerEndsPing(w: World, h: Happening)
    requires w.phase.Pinging? && Step(w, h).phase == w.phase
    ensures h != Hears(Reply(Some(w.phase.ping)))
  {
    hide InHand, Tabled;
  }

  // --- The loop ---

  class Loop {
    const interval: real
    var now: real
    var heardAt: real
    var inflight: Table
    ghost var log: seq<Entry>
    ghost var idle: real

    ghost function View(phase: Phase): World
      reads this
    {
      World(interval, now, heardAt, log, phase, idle)
    }

    constructor (interval: real, now: real, heardAt: real)
      requires interval >= 0.0 && heardAt <= now
      ensures Starts(View(AtHead)) && inflight == Tabled(log)
      ensures this.interval == interval && this.now == now && this.heardAt == heardAt && log == []
    {
      this.interval, this.now, this.heardAt := interval, now, heardAt;
      inflight, log, idle := map[], [], now;
    }

    /** Whether `h` ends what the loop waits for in `phase`. */
    predicate Ends(phase: Phase, h: Happening)
      reads this
    {
      match h
      case Wakes(ping) => (phase.AtHead? || (phase.Sleeping? && now == phase.until)) && (Inbound, ping) !in inflight
      case TimesOut => phase.Pinging? && now == phase.deadline
      case Closes => phase.Pinging?
      case Cancels => phase.Sleeping? || phase.Pinging?
      case Hears(message) => phase.Pinging? && message == Reply(Some(phase.ping))
      case _ => false
    }

    method Note(entry: Entry)
      requires inflight == Tabled(log)
      modifies this`inflight, this`log
      ensures log == old(log) + [entry] && inflight == Tabled(log)
    {
      TabledOne(log, entry);
      match entry {
        case Said(sender, Request(id, name)) => inflight := inflight[(Other(sender), id) := name];
        case Said(sender, Reply(Some(id))) => inflight := inflight - {(sender, id)};
        case GivenUp(id) => inflight := inflight - {(Inbound, id)};
        case _ =>
      }
      log := log + [entry];
    }

    /** Something that goes on beside the loop. */
    method Happen(phase: Phase, h: Happening)
      requires inflight == Tabled(log) && !Ends(phase, h)
      modifies this
      ensures inflight == Tabled(log) && View(phase) == Step(old(View(phase)), h)
    {
      hide Tabled, InHand;
      ghost var before := View(phase);
      match h {
        case Elapses(time) =>
          var far :=
            if phase.Sleeping? then now + time <= phase.until
            else phase.Pinging? ==> now + time <= phase.deadline;
          if time >= 0.0 && !phase.AtHead? && far {
            now := now + time;
            idle := if InHand(before.(now := now)) then now else idle;
          }
        case Hears(message) =>
          Note(Said(Inbound, message));
          heardAt := now;
          idle := now;
        case Says(message) =>
          if !(phase.Pinging? && message.Request? && message.id == phase.ping) {
            Note(Said(Outbound, message));
            idle := if InHand(Noted(before, Said(Outbound, message))) then now else idle;
          }
        case GivesUp(id) =>
          if !(phase.Pinging? && id == phase.ping) {
            Note(GivenUp(id));
          }
        case _ =>
      }
    }

    method Await(phase: Phase, script: seq<Happening>, i: nat, ghost start: World) returns (j: nat)
      requires i <= |script| && inflight == Tabled(log) && View(phase) == After(start, script[..i])
      modifies this
      ensures i <= j <= |script| && inflight == Tabled(log) && View(phase) == After(start, script[..j])
      ensures j < |script| ==> Ends(phase, script[j])
    {
      hide After, Step, Tabled;
      j := i;
      while j < |script| && !Ends(phase, script[j])
        invariant i <= j <= |script| && inflight == Tabled(log) && View(phase) == After(start, script[..j])
      {
        AfterOne(start, script, j);
        Happen(phase, script[j]);
        j := j + 1;
      }
    }

    /** The head of the loop: sleeps, or pings. */
    method Check(before: Phase, ping: string) returns (phase: Phase)
      requires inflight == Tabled(log) && Ends(before, Wakes(ping))
      modifies this
      ensures inflight == Tabled(log) && View(phase) == Step(old(View(before)), Wakes(ping))
    {
      hide Tabled;
      var quiet := now - heardAt;
      var awaiting := exists key | key in inflight :: key.0.Inbound?;
      assert awaiting == AwaitsServer(Tabled(log));
      if quiet < interval || awaiting {
        phase := Sleeping(now + Max(SaturatingSub(interval, quiet), interval / 4.0));
      } else {
        phase := Pinging(ping, now + interval);
        Note(Said(Outbound, Request(ping, "ping")));
      }
    }

    /** Any answer to the ping shows the server is there. */
    method Answered(before: Phase, message: Message) returns (phase: Phase)
      requires inflight == Tabled(log) && Ends(before, Hears(message))
      modifies this
      ensures inflight == Tabled(log) && View(phase) == Step(old(View(before)), Hears(message))
    {
      hide Tabled;
      phase := AtHead;
      Note(Said(Inbound, message));
      heardAt := now;
      idle := now;
    }

    /** What the loop does about what it waited for. */
    method Advance(before: Phase, h: Happening) returns (phase: Phase)
      requires inflight == Tabled(log) && Ends(before, h)
      modifies this
      ensures inflight == Tabled(log) && View(phase) == Step(old(View(before)), h)
    {
      hide Tabled, Checked;
      match h {
        case Wakes(ping) => phase := Check(before, ping);
        case Hears(message) => phase := Answered(before, message);
        case TimesOut => phase := Failed;
        case Closes => phase := Stopped;
        case Cancels => phase := Stopped;
      }
    }

    /** Runs the loop through `script`; returns where it stands then. */
    method Run(script: seq<Happening>) returns (phase: Phase)
      requires inflight == Tabled(log)
      modifies this
      ensures View(phase) == After(old(View(AtHead)), script)
    {
      ghost var start := View(AtHead);
      assert After(start, script[..0]) == start;
      assert script[..|script|] == script;
      hide After, Step, Tabled;
      phase := AtHead;
      var i := 0;
      while true
        invariant i <= |script| && inflight == Tabled(log) && View(phase) == After(start, script[..i])
        decreases |script| - i
      {
        i := Await(phase, script, i, start);
        if i == |script| {
          return;
        }
        AfterOne(start, script, i);
        phase := Advance(phase, script[i]);
        i := i + 1;
      }
    }
  }
}
