/** The listener that keeps a session's subscription stream open: it reopens the stream whenever what it
    listens for changes, and answers each change once it knows what the server made of it. */
module Listen {
  import opened Json

  const FIRST_RETRY: nat := 250
  const LAST_RETRY: nat := 30000

  /** The lists whose changes the server announces. */
  datatype Lists = Lists(tools: bool, prompts: bool, resources: bool)

  /** What a stream is asked for, or acknowledged with. */
  datatype Filter = Filter(lists: Lists, subscriptions: Option<set<string>>)

  const NOTHING := Filter(Lists(false, false, false), None)

  function Wanted(lists: Lists, uris: set<string>): Filter {
    Filter(lists, if uris == {} then None else Some(uris))
  }

  predicate Keeps(accepted: Filter, uri: string) {
    accepted.subscriptions.Some? && uri in accepted.subscriptions.value
  }

  datatype Change = Subscribe(uri: string) | Unsubscribe(uri: string)

  /** The reply to a change: done, or refused. */
  datatype Answer = Answer(change: Change, ok: bool)

  /** Why waiting changes are answered. */
  datatype Verdict = NotNeeded | NotOpened | Acknowledged(accepted: Filter)

  predicate Refuses(verdict: Verdict, change: Change) {
    && change.Subscribe?
    && match verdict
       case NotNeeded => false
       case NotOpened => true
       case Acknowledged(accepted) => !Keeps(accepted, change.uri)
  }

  function Replies(waiting: seq<Change>, verdict: Verdict): seq<Answer> {
    seq(|waiting|, i requires 0 <= i < |waiting| => Answer(waiting[i], !Refuses(verdict, waiting[i])))
  }

  /** What is held for the next stream once the changes of `waiting` are answered. */
  function Left(uris: set<string>, waiting: seq<Change>, verdict: Verdict): set<string> {
    if waiting == [] then uris
    else Left(if Refuses(verdict, waiting[0]) then uris - {waiting[0].uri} else uris, waiting[1..], verdict)
  }

  function Applied(uris: set<string>, change: Change): set<string> {
    match change
    case Subscribe(uri) => uris + {uri}
    case Unsubscribe(uri) => uris - {uri}
  }

  // --- The listener ---

  datatype Phase = Opening | Reading | Idling | Pausing | Stopped

  /** `waiting` holds the changes taken and not answered, `channel` those sent and not taken. */
  datatype State = State(lists: Lists, phase: Phase, uris: set<string>, waiting: seq<Change>, retry: nat,
                         channel: seq<Change>, answered: seq<Answer>)

  datatype Happening =
    | Sends(change: Change)     // someone subscribes or unsubscribes
    | Receives                  // the listener takes a change
    | Opens(accepted: Filter)
    | OpenFails
    | Notifies
    | Closes                    // the server closed the stream
    | Breaks                    // the stream failed, or ended abruptly
    | Elapses                   // the pause is over
    | Cancels                   // the session is over

  function Settled(s: State, verdict: Verdict): State {
    s.(uris := Left(s.uris, s.waiting, verdict), waiting := [], answered := s.answered + Replies(s.waiting, verdict))
  }

  function Taken(s: State): State
    requires s.channel != []
  {
    s.(uris := Applied(s.uris, s.channel[0]), waiting := s.waiting + [s.channel[0]], channel := s.channel[1..])
  }

  function Doubled(retry: nat): nat {
    if retry * 2 < LAST_RETRY then retry * 2 else LAST_RETRY
  }

  /** The top of the loop. */
  function AtHead(s: State): State {
    if Wanted(s.lists, s.uris) == NOTHING then Settled(s, NotNeeded).(phase := Idling) else s.(phase := Opening)
  }

  /** What the listener waits for; anything else does not happen to it. */
  predicate Awaits(s: State, h: Happening) {
    match h
    case Sends(_) => !s.phase.Stopped?
    case Receives => s.channel != [] && (s.phase.Reading? || s.phase.Idling? || s.phase.Pausing?)
    case Opens(_) => s.phase.Opening?
    case OpenFails => s.phase.Opening?
    case Notifies => s.phase.Reading?
    case Closes => s.phase.Reading?
    case Breaks => s.phase.Reading?
    case Elapses => s.phase.Pausing?
    case Cancels => !s.phase.Stopped?
  }

  function Step(s: State, h: Happening): State {
    if !Awaits(s, h) then s
    else match h
      case Sends(change) => s.(channel := s.channel + [change])
      case Receives =>
        var t := Taken(s);
        AtHead(if s.phase.Pausing? then t.(retry := Doubled(s.retry)) else t)
      case Opens(accepted) => Settled(s, Acknowledged(accepted)).(phase := Reading)
      case OpenFails => Settled(s, NotOpened).(phase := Pausing)
      case Notifies => s.(retry := FIRST_RETRY)
      case Closes => s.(phase := Idling)
      case Breaks => s.(phase := Pausing)
      case Elapses => AtHead(s.(retry := Doubled(s.retry)))
      case Cancels => s.(phase := Stopped)
  }

  function After(s: State, script: seq<Happening>): State {
    if script == [] then s
    else Step(After(s, script[..|script| - 1]), script[|script| - 1])
  }

  /** A task just spawned. */
  function Spawned(lists: Lists): State {
    AtHead(State(lists, Opening, {}, [], FIRST_RETRY, [], []))
  }

  lemma AfterOne(s: State, script: seq<Happening>, i: nat)
    requires i < |script|
    ensures After(s, script[..i + 1]) == Step(After(s, script[..i]), script[i])
  {
    assert script[..i + 1][..i] == script[..i];
  }

  lemma {:induction false} StaysStopped(s: State, script: seq<Happening>, i: nat, j: nat)
    requires i <= j <= |script| && After(s, script[..i]).phase.Stopped?
    ensures After(s, script[..j]) == After(s, script[..i])
  {
    if i < j {
      StaysStopped(s, script, i, j - 1);
      AfterOne(s, script, j - 1);
    }
  }

  class Listener {
    const lists: Lists
    var uris: set<string>
    var waiting: seq<Change>
    var retry: nat
    var channel: seq<Change>
    var answered: seq<Answer>

    function View(phase: Phase): State
      reads this
    {
      State(lists, phase, uris, waiting, retry, channel, answered)
    }

    constructor (lists: Lists)
      ensures View(Opening) == State(lists, Opening, {}, [], FIRST_RETRY, [], [])
    {
      this.lists := lists;
      uris, waiting, retry, channel, answered := {}, [], FIRST_RETRY, [], [];
    }

    method Apply(change: Change)
      modifies this
      ensures View(Opening)
            == old(View(Opening)).(uris := Applied(old(uris), change), waiting := old(waiting) + [change])
    {
      match change {
        case Subscribe(uri) => uris := uris + {uri};
        case Unsubscribe(uri) => uris := uris - {uri};
      }
      waiting := waiting + [change];
    }

    method Settle(failed: bool)
      modifies this
      ensures View(Opening) == Settled(old(View(Opening)), if failed then NotOpened else NotNeeded)
    {
      ghost var verdict := if failed then NotOpened else NotNeeded;
      for i := 0 to |waiting|
        invariant waiting == old(waiting) && retry == old(retry) && channel == old(channel)
        invariant answered == old(answered) + Replies(waiting, verdict)[..i]
        invariant Left(old(uris), waiting, verdict) == Left(uris, waiting[i..], verdict)
      {
        var change := waiting[i];
        assert waiting[i..][1..] == waiting[i + 1..];
        if change.Subscribe? && failed {
          uris := uris - {change.uri};
          answered := answered + [Answer(change, false)];
        } else {
          answered := answered + [Answer(change, true)];
        }
      }
      waiting := [];
    }

    method SettleAccepted(accepted: Filter)
      modifies this
      ensures View(Opening) == Settled(old(View(Opening)), Acknowledged(accepted))
    {
      ghost var verdict := Acknowledged(accepted);
      for i := 0 to |waiting|
        invariant waiting == old(waiting) && retry == old(retry) && channel == old(channel)
        invariant answered == old(answered) + Replies(waiting, verdict)[..i]
        invariant Left(old(uris), waiting, verdict) == Left(uris, waiting[i..], verdict)
      {
        var change := waiting[i];
        assert waiting[i..][1..] == waiting[i + 1..];
        if change.Subscribe? && !Keeps(accepted, change.uri) {
          uris := uris - {change.uri};
          answered := answered + [Answer(change, false)];
        } else {
          answered := answered + [Answer(change, true)];
        }
      }
      waiting := [];
    }

    /** Waits in `phase` for what that phase waits for; only sends happen meanwhile. */
    method Await(phase: Phase, script: seq<Happening>, i: nat, ghost start: State) returns (j: nat)
      requires i <= |script| && !phase.Stopped?
      requires View(phase) == After(start, script[..i])
      modifies this
      ensures i <= j <= |script| && retry == old(retry)
      ensures View(phase) == After(start, script[..j])
      ensures j < |script| ==> Awaits(View(phase), script[j]) && !script[j].Sends?
    {
      j := i;
      while j < |script| && (script[j].Sends? || !Awaits(View(phase), script[j]))
        invariant i <= j <= |script| && retry == old(retry)
        invariant View(phase) == After(start, script[..j])
      {
        AfterOne(start, script, j);
        if script[j].Sends? {
          channel := channel + [script[j].change];
        }
        j := j + 1;
      }
    }

    /** Takes the next change. */
    method Take()
      requires channel != []
      modifies this
      ensures View(Opening) == Taken(old(View(Opening)))
    {
      var change := channel[0];
      channel := channel[1..];
      Apply(change);
    }

    /** The listener has come to the top of its loop (`Opening`), or into another phase. */
    ghost predicate Stands(phase: Phase, start: State, script: seq<Happening>, i: nat)
      requires i <= |script|
      reads this
    {
      (if phase.Opening? then AtHead(View(Opening)) else View(phase)) == After(start, script[..i])
    }

    /** Opens a stream, and answers what waits for it. `Opening` when the script ends first. */
    method Open(script: seq<Happening>, i: nat, ghost start: State) returns (phase: Phase, j: nat)
      requires i <= |script| && View(Opening) == After(start, script[..i])
      modifies this
      ensures i <= j <= |script| && View(phase) == After(start, script[..j])
      ensures !phase.Idling? && (phase.Opening? || i < j)
      ensures phase.Opening? ==> j == |script|
    {
      phase := Opening;
      j := Await(phase, script, i, start);
      if j == |script| {
        return;
      }
      AfterOne(start, script, j);
      hide After;
      match script[j] {
        case Cancels =>
          phase := Stopped;
        case OpenFails =>
          Settle(true);
          phase := Pausing;
        case Opens(accepted) =>
          SettleAccepted(accepted);
          phase := Reading;
      }
      j := j + 1;
    }

    /** The top of the loop: opens a stream, unless there is nothing to listen for. */
    method Begin(script: seq<Happening>, i: nat, ghost start: State) returns (phase: Phase, j: nat)
      requires i <= |script| && Stands(Opening, start, script, i)
      modifies this
      ensures i <= j <= |script| && View(phase) == After(start, script[..j])
      ensures phase.Idling? || (phase.Opening? && j == |script|) || i < j
      ensures phase.Opening? ==> j == |script|
    {
      hide After;
      if Wanted(lists, uris) == NOTHING {
        Settle(false);
        phase, j := Idling, i;
      } else {
        phase, j := Open(script, i, start);
      }
    }

    /** Reads the open stream until it ends, or what it listens for changes. */
    method Read(script: seq<Happening>, i: nat, ghost start: State) returns (phase: Phase, j: nat)
      requires i <= |script| && View(Reading) == After(start, script[..i])
      modifies this
      ensures i <= j <= |script| && Stands(phase, start, script, j)
      ensures phase.Reading? ==> j == |script|
    {
      hide After;
      phase, j := Reading, i;
      while phase == Reading && j < |script|
        invariant i <= j <= |script| && Stands(phase, start, script, j)
        decreases |script| - j
      {
        j := Await(phase, script, j, start);
        if j == |script| {
          return;
        }
        AfterOne(start, script, j);
        match script[j] {
          case Notifies => retry := FIRST_RETRY;
          case Closes => phase := Idling;
          case Breaks => phase := Pausing;
          case Cancels => phase := Stopped;
          case Receives =>
            Take();
            phase := Opening;
        }
        j := j + 1;
      }
    }

    /** Waits for a change, or in a pause for its end. */
    method Wait(before: Phase, script: seq<Happening>, i: nat, ghost start: State) returns (phase: Phase, j: nat)
      requires before.Idling? || before.Pausing?
      requires i <= |script| && View(before) == After(start, script[..i])
      modifies this
      ensures i <= j <= |script| && Stands(phase, start, script, j)
      ensures phase == before ==> j == |script|
      ensures phase == before || phase.Stopped? || (phase.Opening? && i < j)
    {
      phase := before;
      j := Await(phase, script, i, start);
      if j == |script| {
        return;
      }
      AfterOne(start, script, j);
      hide After;
      match script[j] {
        case Elapses => phase := Opening;
        case Cancels => phase := Stopped;
        case Receives =>
          Take();
          phase := Opening;
      }
      if before == Pausing && phase == Opening {
        retry := Doubled(retry);
      }
      j := j + 1;
    }

    /** Runs the listener through `script`; returns where it stands then. */
    method Run(script: seq<Happening>) returns (phase: Phase)
      modifies this
      ensures View(phase) == After(AtHead(old(View(Opening))), script)
    {
      ghost var start := AtHead(View(Opening));
      assert script[..|script|] == script;
      assert After(start, script[..0]) == start;
      hide After, AtHead, Settled;
      var i := 0;
      phase := Opening;
      while phase == Opening
        invariant i <= |script| && Stands(phase, start, script, i)
        invariant phase == Opening || phase == Stopped || i == |script|
        decreases |script| - i, phase == Opening
      {
        phase, i := Begin(script, i, start);
        if i == |script| && phase == Opening {
          return;
        }
        if phase == Reading {
          phase, i := Read(script, i, start);
        }
        if phase == Idling || phase == Pausing {
          phase, i := Wait(phase, script, i, start);
        }
      }
      if phase == Stopped {
        StaysStopped(start, script, i, |script|);
      }
    }
  }

  // --- What every run of the listener keeps ---

  function Changes(answered: seq<Answer>): seq<Change> {
    seq(|answered|, i requires 0 <= i < |answered| => answered[i].change)
  }

  /** What is held for the next stream, by the answers given: a refused subscription is forgotten, even when the
      same resource had been subscribed to before. */
  function Replay(answered: seq<Answer>): set<string> {
    if answered == [] then {}
    else
      var last := answered[|answered| - 1];
      var before := Replay(answered[..|answered| - 1]);
      if last.ok then Applied(before, last.change) else before - {last.change.uri}
  }

  /** The last answer to a change about `uri`. */
  function LastAbout(answered: seq<Answer>, uri: string): (last: Option<Answer>)
    ensures last.Some? ==> last.value in answered && last.value.change.uri == uri
    ensures last.None? ==> forall answer :: answer in answered ==> answer.change.uri != uri
  {
    if answered == [] then None
    else
      var last := answered[|answered| - 1];
      if last.change.uri == uri then Some(last) else LastAbout(answered[..|answered| - 1], uri)
  }

  lemma {:induction false} ReplayTellsTheLast(answered: seq<Answer>, uri: string)
    ensures uri in Replay(answered) <==> LastAbout(answered, uri) == Some(Answer(Subscribe(uri), true))
  {
    if answered != [] {
      ReplayTellsTheLast(answered[..|answered| - 1], uri);
    }
  }

  /** The changes sent before the listener stopped, in order. */
  function Sent(s: State, script: seq<Happening>): seq<Change> {
    if script == [] then []
    else
      var last := script[|script| - 1];
      var before := Sent(s, script[..|script| - 1]);
      if last.Sends? && !After(s, script[..|script| - 1]).phase.Stopped? then before + [last.change] else before
  }

  /** How many pauses have ended since the last notification. */
  function Retries(s: State, script: seq<Happening>): nat {
    if script == [] then 0
    else
      var (last, t) := (script[|script| - 1], After(s, script[..|script| - 1]));
      var before := Retries(s, script[..|script| - 1]);
      if !Awaits(t, last) then before
      else if last.Notifies? then 0
      else if t.phase.Pausing? && (last.Elapses? || last.Receives?) then before + 1
      else before
  }

  function Delay(k: nat): nat {
    if k == 0 then FIRST_RETRY else if 2 * Delay(k - 1) < LAST_RETRY then 2 * Delay(k - 1) else LAST_RETRY
  }

  function Power(k: nat): nat {
    if k == 0 then 1 else 2 * Power(k - 1)
  }

  lemma {:induction false} DelayDoubles(k: nat)
    ensures Delay(k) == if FIRST_RETRY * Power(k) < LAST_RETRY then FIRST_RETRY * Power(k) else LAST_RETRY
  {
    if k > 0 {
      DelayDoubles(k - 1);
    }
  }

  predicate Inv(s: State) {
    && |s.waiting| <= 1
    && (s.waiting != [] ==> s.phase.Opening? || s.phase.Stopped?)
    && s.uris == (if s.waiting == [] then Replay(s.answered) else Applied(Replay(s.answered), s.waiting[0]))
    && (s.phase.Opening? ==> Wanted(s.lists, s.uris) != NOTHING)
  }

  /** What holds at the top of the loop. */
  predicate HeadInv(s: State) {
    && |s.waiting| <= 1
    && s.uris == (if s.waiting == [] then Replay(s.answered) else Applied(Replay(s.answered), s.waiting[0]))
  }

  lemma SettlingOne(s: State, change: Change, verdict: Verdict)
    requires s.waiting == [change]
    ensures var refused := Refuses(verdict, change);
            Settled(s, verdict) == s.(uris := if refused then s.uris - {change.uri} else s.uris, waiting := [],
                                      answered := s.answered + [Answer(change, !refused)])
  {
    assert Replies([change], verdict) == [Answer(change, !Refuses(verdict, change))];
    assert s.waiting[1..] == [];
    var left := if Refuses(verdict, change) then s.uris - {change.uri} else s.uris;
    assert Left(left, [], verdict) == left;
  }

  lemma SettlingReplays(s: State, verdict: Verdict)
    requires HeadInv(s)
    requires verdict.NotNeeded? ==> s.uris == {}
    ensures HeadInv(Settled(s, verdict)) && Settled(s, verdict).waiting == []
    ensures verdict.NotNeeded? ==> Settled(s, verdict).uris == {}
  {
    if s.waiting != [] {
      SettlingOne(s, s.waiting[0], verdict);
      assert (s.answered + [Answer(s.waiting[0], !Refuses(verdict, s.waiting[0]))])[..|s.answered|] == s.answered;
    } else {
      assert s.answered + Replies(s.waiting, verdict) == s.answered;
    }
  }

  lemma HeadKeepsInv(s: State)
    requires HeadInv(s)
    ensures Inv(AtHead(s))
  {
    if Wanted(s.lists, s.uris) == NOTHING {
      SettlingReplays(s, NotNeeded);
    }
  }

  lemma StepKeepsInv(s: State, h: Happening)
    requires Inv(s)
    ensures Inv(Step(s, h))
  {
    hide Replay, Replies, Left, AtHead, Settled;
    if Awaits(s, h) {
      match h {
        case Receives =>
          var t := Taken(s);
          HeadKeepsInv(if s.phase.Pausing? then t.(retry := Doubled(s.retry)) else t);
        case Elapses => HeadKeepsInv(s.(retry := Doubled(s.retry)));
        case Opens(accepted) => SettlingReplays(s, Acknowledged(accepted));
        case OpenFails => SettlingReplays(s, NotOpened);
        case _ =>
      }
    }
  }

  lemma {:induction false} RunKeepsInv(lists: Lists, script: seq<Happening>)
    ensures Inv(After(Spawned(lists), script))
  {
    if script == [] {
      HeadKeepsInv(State(lists, Opening, {}, [], FIRST_RETRY, [], []));
    } else {
      RunKeepsInv(lists, script[..|script| - 1]);
      StepKeepsInv(After(Spawned(lists), script[..|script| - 1]), script[|script| - 1]);
    }
  }

  /** The changes a state accounts for: answered, waiting, and not taken yet. */
  function All(s: State): seq<Change> {
    Changes(s.answered) + s.waiting + s.channel
  }

  lemma SettlingKeepsAll(s: State, verdict: Verdict)
    ensures All(Settled(s, verdict)) == All(s)
  {
    assert Changes(s.answered + Replies(s.waiting, verdict)) == Changes(s.answered) + s.waiting;
  }

  lemma StepKeepsAll(s: State, h: Happening)
    ensures All(Step(s, h)) == if h.Sends? && !s.phase.Stopped? then All(s) + [h.change] else All(s)
  {
    if Awaits(s, h) {
      match h {
        case Receives =>
          var t := Taken(s);
          assert s.channel == [s.channel[0]] + s.channel[1..];
          SettlingKeepsAll(t, NotNeeded);
          SettlingKeepsAll(t.(retry := Doubled(s.retry)), NotNeeded);
        case Elapses => SettlingKeepsAll(s.(retry := Doubled(s.retry)), NotNeeded);
        case Opens(accepted) => SettlingKeepsAll(s, Acknowledged(accepted));
        case OpenFails => SettlingKeepsAll(s, NotOpened);
        case _ =>
      }
    }
  }

  /** No change is lost, answered twice or answered out of order: what was sent is what was answered,
      then at most one change that waits for a stream, then what the listener has not taken. */
  lemma {:induction false} AnsweredInOrder(lists: Lists, script: seq<Happening>)
    ensures var s := After(Spawned(lists), script);
            && Sent(Spawned(lists), script) == Changes(s.answered) + s.waiting + s.channel
            && |s.waiting| <= 1
            && (s.waiting != [] ==> s.phase.Opening? || s.phase.Stopped?)
  {
    RunKeepsInv(lists, script);
    if script != [] {
      AnsweredInOrder(lists, script[..|script| - 1]);
      StepKeepsAll(After(Spawned(lists), script[..|script| - 1]), script[|script| - 1]);
    }
  }

  /** Whenever no change waits, the listener holds for its stream, open or the next, exactly what its
      answers add up to. */
  lemma ListensForItsAnswers(lists: Lists, script: seq<Happening>)
    requires After(Spawned(lists), script).waiting == []
    ensures After(Spawned(lists), script).uris == Replay(After(Spawned(lists), script).answered)
  {
    RunKeepsInv(lists, script);
  }

  /** That is, a resource exactly when the last answer about it is a subscription's success. */
  lemma ListensForWhatSucceededLast(lists: Lists, script: seq<Happening>, uri: string)
    requires After(Spawned(lists), script).waiting == []
    ensures var s := After(Spawned(lists), script);
            uri in s.uris <==> LastAbout(s.answered, uri) == Some(Answer(Subscribe(uri), true))
  {
    ListensForItsAnswers(lists, script);
    ReplayTellsTheLast(After(Spawned(lists), script).answered, uri);
  }

  /** A subscription that was answered with success is lost exactly when the last answer about its
      resource is an unsubscription's, or a refusal: then an earlier success does not count. */
  lemma WhenASubscriptionIsLost(lists: Lists, script: seq<Happening>, uri: string, j: nat)
    requires After(Spawned(lists), script).waiting == []
    requires j < |After(Spawned(lists), script).answered|
    requires After(Spawned(lists), script).answered[j] == Answer(Subscribe(uri), true)
    ensures var s := After(Spawned(lists), script);
            && LastAbout(s.answered, uri).Some?
            && (uri !in s.uris <==>
                  LastAbout(s.answered, uri).value.change.Unsubscribe? || !LastAbout(s.answered, uri).value.ok)
  {
    ListensForWhatSucceededLast(lists, script, uri);
    assert After(Spawned(lists), script).answered[j] in After(Spawned(lists), script).answered;
  }

  /** What an attempt to open a stream answers a change that waits for it. */
  predicate Accepted(change: Change, h: Happening) {
    || change.Unsubscribe?
    || (h.Opens? && h.accepted.subscriptions.Some? && change.uri in h.accepted.subscriptions.value)
  }

  /** A change that waits is answered by the very next attempt to open a stream, as that attempt
      went, and a stream is only asked for when there is something to listen for. */
  lemma TheNextStreamAnswers(lists: Lists, script: seq<Happening>, h: Happening)
    requires After(Spawned(lists), script).waiting != [] && !After(Spawned(lists), script).phase.Stopped?
    requires h.Opens? || h.OpenFails?
    ensures var (s, t) := (After(Spawned(lists), script), After(Spawned(lists), script + [h]));
            && Wanted(s.lists, s.uris) != NOTHING
            && t.answered == s.answered + [Answer(s.waiting[0], Accepted(s.waiting[0], h))]
            && t.waiting == []
  {
    RunKeepsInv(lists, script);
    AfterOne(Spawned(lists), script + [h], |script|);
    assert (script + [h])[..|script|] == script && (script + [h])[..|script| + 1] == script + [h];
  }

  /** One step answers a subscription with success only when it opens a stream that keeps it. */
  lemma StepAnswersOk(s: State, h: Happening, j: nat)
    requires Inv(s) && |s.answered| <= j < |Step(s, h).answered|
    requires Step(s, h).answered[j].ok && Step(s, h).answered[j].change.Subscribe?
    ensures h.Opens? && Keeps(h.accepted, Step(s, h).answered[j].change.uri)
    ensures j < |Changes(s.answered) + s.waiting| && s.phase.Opening?
  {
    hide Replay, Left;
  }

  /** The steps that give answers, taken one after another: step `i` gives answer `j`. */
  lemma {:induction false} WhenAnswered(lists: Lists, script: seq<Happening>, j: nat) returns (i: nat)
    requires j < |After(Spawned(lists), script).answered|
    ensures i < |script|
    ensures |After(Spawned(lists), script[..i]).answered| <= j < |After(Spawned(lists), script[..i + 1]).answered|
    ensures After(Spawned(lists), script[..i + 1]).answered[j] == After(Spawned(lists), script).answered[j]
  {
    var n := |script|;
    i := 0;
    assert Spawned(lists).answered == [];
    if n > 0 {
      var s := After(Spawned(lists), script[..n - 1]);
      assert script[..n] == script;
      StepOnlyAddsAnswers(s, script[n - 1]);
      if j < |s.answered| {
        i := WhenAnswered(lists, script[..n - 1], j);
        assert script[..n - 1][..i] == script[..i] && script[..n - 1][..i + 1] == script[..i + 1];
      } else {
        i := n - 1;
      }
    }
  }

  lemma StepOnlyAddsAnswers(s: State, h: Happening)
    ensures s.answered <= Step(s, h).answered
  {
  }

  /** A subscription that was answered with success was kept by a stream opened after the change was
      taken, and no stream was tried in between. */
  lemma OkMeansAcknowledged(lists: Lists, script: seq<Happening>, j: nat) returns (i: nat)
    requires j < |After(Spawned(lists), script).answered|
    requires After(Spawned(lists), script).answered[j].ok && After(Spawned(lists), script).answered[j].change.Subscribe?
    ensures i < |script| && script[i].Opens? && script[i].accepted.subscriptions.Some?
    ensures After(Spawned(lists), script).answered[j].change.uri in script[i].accepted.subscriptions.value
    ensures var before := After(Spawned(lists), script[..i]);
            && |before.answered| == j
            && before.waiting == [After(Spawned(lists), script).answered[j].change]
            && before.phase.Opening?
  {
    i := WhenAnswered(lists, script, j);
    AfterOne(Spawned(lists), script, i);
    RunKeepsInv(lists, script[..i]);
    StepAnswersOk(After(Spawned(lists), script[..i]), script[i], j);
  }

  /** Whether there is anything to hear of: a list is wanted, or a URI is held. */
  predicate Hears(s: State) {
    s.lists.tools || s.lists.prompts || s.lists.resources || s.uris != {}
  }

  /** What last became of the stream, or of the attempt to open it. */
  function StreamsEnd(s: State, script: seq<Happening>): Option<Happening> {
    if script == [] then None
    else
      var (last, before) := (script[|script| - 1], script[..|script| - 1]);
      if (last.Opens? || last.OpenFails? || last.Closes? || last.Breaks?) && Awaits(After(s, before), last)
      then Some(last) else StreamsEnd(s, before)
  }

  lemma HearsIsWanted(s: State)
    ensures Hears(s) <==> Wanted(s.lists, s.uris) != NOTHING
  {
  }

  /** Each phase has its reason: the listener reads what opened, pauses for what failed, and waits for a
      change only where there is nothing to hear of or the server closed the stream. */
  lemma {:induction false} PhaseHasAReason(lists: Lists, script: seq<Happening>)
    ensures var (s, end) := (After(Spawned(lists), script), StreamsEnd(Spawned(lists), script));
            && (s.phase.Reading? ==> end.Some? && end.value.Opens?)
            && (s.phase.Pausing? ==> end.Some? && (end.value.OpenFails? || end.value.Breaks?))
            && (s.phase.Idling? ==> !Hears(s) || (end.Some? && end.value.Closes?))
            && (s.phase.Opening? ==> Hears(s))
            && s.lists == lists
  {
    if script == [] {
      AtHeadHasAReason(State(lists, Opening, {}, [], FIRST_RETRY, [], []));
    } else {
      var (before, h) := (After(Spawned(lists), script[..|script| - 1]), script[|script| - 1]);
      PhaseHasAReason(lists, script[..|script| - 1]);
      match h {
        case Receives =>
          if Awaits(before, h) {
            AtHeadHasAReason(Taken(before));
            AtHeadHasAReason(Taken(before).(retry := Doubled(before.retry)));
          }
        case Elapses => AtHeadHasAReason(before.(retry := Doubled(before.retry)));
        case _ =>
      }
      hide AtHead, Hears, Left, Replies;
      if Step(before, h).uris == before.uris && Step(before, h).lists == before.lists {
        SameHears(before, Step(before, h));
      }
    }
  }

  lemma SameHears(s: State, t: State)
    requires s.lists == t.lists && s.uris == t.uris
    ensures Hears(s) <==> Hears(t)
  {
  }

  lemma AtHeadHasAReason(s: State)
    ensures AtHead(s).lists == s.lists
    ensures AtHead(s).phase == if Hears(AtHead(s)) then Opening else Idling
  {
    HearsIsWanted(s);
    HeardAtHead(s);
  }

  /** Settling what waits with no stream asked for changes nothing that is heard of. */
  lemma HeardAtHead(s: State)
    ensures Settled(s, NotNeeded).uris == s.uris
  {
    NotNeededLeaves(s.uris, s.waiting);
  }

  lemma {:induction false} NotNeededLeaves(uris: set<string>, waiting: seq<Change>)
    ensures Left(uris, waiting, NotNeeded) == uris
  {
    if waiting != [] {
      NotNeededLeaves(uris, waiting[1..]);
    }
  }

  /** The listener stops exactly when the session is over. */
  lemma {:induction false} StopsWhenCancelled(lists: Lists, script: seq<Happening>)
    ensures After(Spawned(lists), script).phase.Stopped? <==> Cancels in script
  {
    hide Wanted, Settled, Applied;
    if script != [] {
      StopsWhenCancelled(lists, script[..|script| - 1]);
      assert script == script[..|script| - 1] + [script[|script| - 1]];
    }
  }

  lemma {:induction false} SendsOnlyWait(s: State, sends: seq<Happening>)
    requires !s.phase.Stopped? && forall h :: h in sends ==> h.Sends?
    ensures After(s, sends) == s.(channel := After(s, sends).channel)
  {
    if sends != [] {
      SendsOnlyWait(s, sends[..|sends| - 1]);
    }
  }

  lemma {:induction false} AfterParts(s: State, x: seq<Happening>, y: seq<Happening>)
    ensures After(s, x + y) == After(After(s, x), y)
  {
    if y == [] {
      assert x + y == x;
    } else {
      AfterParts(s, x, y[..|y| - 1]);
      assert (x + y)[..|x + y| - 1] == x + y[..|y| - 1];
    }
  }

  /** A stream that broke, or could not be opened, is opened again after one pause, whatever is sent
      meanwhile, with the pause after it twice as long up to the longest: as long as there is anything to
      hear of. */
  lemma ABrokenStreamIsOpenedAgain(lists: Lists, script: seq<Happening>, h: Happening, sends: seq<Happening>)
    requires h.OpenFails? || h.Breaks?
    requires Awaits(After(Spawned(lists), script), h) && forall x :: x in sends ==> x.Sends?
    ensures var s := After(Spawned(lists), script);
            var t := After(Spawned(lists), script + [h] + sends);
            var u := After(Spawned(lists), script + [h] + sends + [Elapses]);
            && Awaits(t, Elapses)
            && u.uris == t.uris && u.retry == (if s.retry * 2 < LAST_RETRY then s.retry * 2 else LAST_RETRY)
            && (if Hears(t) then u.phase.Opening? else u.phase.Idling?)
  {
    var start := Spawned(lists);
    var s := After(start, script);
    AfterParts(start, script, [h]);
    assert After(s, [h]) == Step(s, h) by {
      assert [h][..0] == [] && After(s, []) == s;
    }
    AfterParts(start, script + [h], sends);
    SendsOnlyWait(Step(s, h), sends);
    var t := After(start, script + [h] + sends);
    AfterParts(start, script + [h] + sends, [Elapses]);
    assert [Elapses][..0] == [] && After(t, []) == t && After(t, [Elapses]) == Step(t, Elapses);
    HearsIsWanted(t);
    HeardAtHead(t.(retry := Doubled(t.retry)));
    hide Settled, Wanted, Hears;
    assert Step(s, h).retry == s.retry by {
      StepsKeepRetry(s, h);
    }
  }

  lemma StepsKeepRetry(s: State, h: Happening)
    requires h.OpenFails? || h.Breaks?
    ensures Step(s, h).retry == s.retry
  {
  }

  /** The wait before the stream is opened again is 250 ms, doubled with every pause since the last
      notification, and never more than 30 s. */
  lemma {:induction false} RetryBacksOff(lists: Lists, script: seq<Happening>)
    ensures After(Spawned(lists), script).retry == Delay(Retries(Spawned(lists), script))
  {
    if script != [] {
      RetryBacksOff(lists, script[..|script| - 1]);
    }
  }

  /** Sent while the listener takes changes, a subscription waits for the stream to be opened again. */
  lemma SubscribeIsTaken(s: State, uri: string)
    requires s.phase.Idling? || s.phase.Reading?
    requires s.channel == [] && s.waiting == []
    ensures Step(Step(s, Sends(Subscribe(uri))), Receives)
         == s.(phase := Opening, uris := s.uris + {uri}, waiting := [Subscribe(uri)])
  {
    assert uri in s.uris + {uri};
    assert s.channel + [Subscribe(uri)] == [Subscribe(uri)];
  }

  /** A subscription sent, taken, and answered by what the next stream does. */
  function Tried(s: State, uri: string, h: Happening): State {
    Step(Step(Step(s, Sends(Subscribe(uri))), Receives), h)
  }

  /** A subscription made twice: when the second is refused because no stream could be opened, the
      first is forgotten with it, although it was answered with success. */
  lemma ARefusedRepeatForgetsTheFirst(s: State, uri: string, kept: Filter)
    requires (s.phase.Idling? || s.phase.Reading?) && s.channel == [] && s.waiting == []
    requires Keeps(kept, uri)
    ensures var t := Tried(s, uri, Opens(kept));
            var u := Tried(t, uri, OpenFails);
            && t.answered == s.answered + [Answer(Subscribe(uri), true)] && uri in t.uris
            && u.answered == t.answered + [Answer(Subscribe(uri), false)] && uri !in u.uris
  {
    SubscribeIsTaken(s, uri);
    var t := Tried(s, uri, Opens(kept));
    SettlingOne(s.(phase := Opening, uris := s.uris + {uri}, waiting := [Subscribe(uri)]), Subscribe(uri),
                Acknowledged(kept));
    SubscribeIsTaken(t, uri);
    SettlingOne(t.(phase := Opening, uris := t.uris + {uri}, waiting := [Subscribe(uri)]), Subscribe(uri), NotOpened);
    hide AtHead, Left, Replies;
  }
}
