/** The responses shown per selection: one request per key at a time, each under a stamp of its own. */
module Responses {
  import opened Json

  datatype Mode = Tools | Resources | Prompts | History | Server

  datatype Key = Key(server: string, mode: Mode, name: string)

  datatype Response = Pending(answer: nat) | Answered(body: Json, answer: nat)

  /** A request in flight; `token` is what its progress is reported under, once it is known. */
  datatype Waiting = Waiting(stamp: nat, token: Option<Json>, progress: Option<Json>)

  /** `cancelled` holds the stamps of the requests told to stop. */
  datatype Table = Table(shown: map<Key, Response>, waiting: map<Key, Waiting>, stamp: nat, cancelled: set<nat>)

  const EMPTY := Table(map[], map[], 0, {})

  datatype Op =
    | Begin(key: Key)
    | Finish(key: Key, stamp: nat, body: Json)
    | Cancel(key: Key)
    | Token(key: Key, token: Json)             // the request was sent under `token`
    | Progress(token: Json, update: Json)
    | ForgetMode(id: string, mode: Mode)
    | ForgetCall(id: string, call: string)
    | ForgetServer(id: string)

  predicate Current(t: Table, key: Key, stamp: nat) {
    key in t.waiting && t.waiting[key].stamp == stamp
  }

  /** What a `forget` names. */
  predicate Names(op: Op, key: Key) {
    match op
    case ForgetMode(id, mode) => key.server == id && key.mode == mode
    case ForgetCall(id, call) => key.server == id && key.mode.History? && key.name == call
    case ForgetServer(id) => key.server == id
    case _ => false
  }

  function Forgotten(t: Table, op: Op): Table {
    t.(shown := map key | key in t.shown && !Names(op, key) :: t.shown[key],
       waiting := map key | key in t.waiting && !Names(op, key) :: t.waiting[key],
       cancelled := t.cancelled + set key | key in t.waiting && Names(op, key) :: t.waiting[key].stamp)
  }

  /** The requests that wait under `token`; which of them a progress is filed under is not said. */
  predicate Expects(w: Waiting, token: Json) {
    w.token == Some(token)
  }

  ghost predicate Step(t: Table, op: Op, u: Table) {
    match op
    case Begin(key) =>
      if key in t.waiting then u == t
      else u == t.(stamp := t.stamp + 1, waiting := t.waiting[key := Waiting(t.stamp + 1, None, None)],
                   shown := t.shown[key := Pending(t.stamp + 1)])
    case Finish(key, stamp, body) =>
      if !Current(t, key, stamp) then u == t
      else u == t.(waiting := t.waiting - {key}, shown := t.shown[key := Answered(body, stamp)])
    case Cancel(key) => if key in t.waiting then u == t.(cancelled := t.cancelled + {t.waiting[key].stamp}) else u == t
    case Token(key, token) =>
      if key in t.waiting then u == t.(waiting := t.waiting[key := t.waiting[key].(token := Some(token))]) else u == t
    case Progress(token, update) =>
      if forall key :: key in t.waiting ==> !Expects(t.waiting[key], token) then u == t
      else exists key :: key in t.waiting && Expects(t.waiting[key], token)
             && u == t.(waiting := t.waiting[key := t.waiting[key].(progress := Some(update))])
    case _ => u == Forgotten(t, op)
  }

  // --- What every table keeps ---

  ghost predicate Inv(t: Table) {
    && (forall key :: key in t.shown && t.shown[key].Pending? ==> Current(t, key, t.shown[key].answer))
    && (forall key :: key in t.waiting ==> key in t.shown && t.shown[key] == Pending(t.waiting[key].stamp))
    && (forall key :: key in t.waiting ==> 0 < t.waiting[key].stamp <= t.stamp)
    && (forall key :: key in t.shown ==> 0 < t.shown[key].answer <= t.stamp)
    && (forall x, y :: x in t.waiting && y in t.waiting && t.waiting[x].stamp == t.waiting[y].stamp ==> x == y)
  }

  lemma BeginKeepsInv(t: Table, key: Key, u: Table)
    requires Inv(t) && Step(t, Begin(key), u)
    ensures Inv(u) && t.stamp <= u.stamp && t.cancelled <= u.cancelled
  {
  }

  lemma FinishKeepsInv(t: Table, key: Key, stamp: nat, body: Json, u: Table)
    requires Inv(t) && Step(t, Finish(key, stamp, body), u)
    ensures Inv(u) && t.stamp <= u.stamp && t.cancelled <= u.cancelled
  {
  }

  /** Neither a token nor a progress changes what is waited for. */
  lemma NotingKeepsInv(t: Table, key: Key, w: Waiting)
    requires Inv(t) && key in t.waiting && w.stamp == t.waiting[key].stamp
    ensures Inv(t.(waiting := t.waiting[key := w]))
  {
  }

  lemma ForgettingKeepsInv(t: Table, op: Op)
    requires Inv(t)
    ensures Inv(Forgotten(t, op)) && t.cancelled <= Forgotten(t, op).cancelled
  {
    hide Names;
  }

  lemma StepKeepsInv(t: Table, op: Op, u: Table)
    requires Inv(t) && Step(t, op, u)
    ensures Inv(u) && t.stamp <= u.stamp && t.cancelled <= u.cancelled
  {
    match op {
      case Begin(key) => BeginKeepsInv(t, key, u);
      case Finish(key, stamp, body) => FinishKeepsInv(t, key, stamp, body, u);
      case Cancel(key) =>
      case Token(key, token) =>
        if key in t.waiting {
          NotingKeepsInv(t, key, t.waiting[key].(token := Some(token)));
        }
        hide Inv;
      case Progress(token, update) =>
        if exists key :: key in t.waiting && Expects(t.waiting[key], token) {
          var key :| key in t.waiting && Expects(t.waiting[key], token)
            && u == t.(waiting := t.waiting[key := t.waiting[key].(progress := Some(update))]);
          NotingKeepsInv(t, key, t.waiting[key].(progress := Some(update)));
        }
        hide Inv;
      case _ =>
        ForgettingKeepsInv(t, op);
        hide Inv, Forgotten;
    }
  }

  ghost predicate Run(trace: seq<Table>, ops: seq<Op>) {
    && |trace| == |ops| + 1 && trace[0] == EMPTY
    && forall i :: 0 <= i < |ops| ==> Step(trace[i], ops[i], trace[i + 1])
  }

  lemma {:induction false} RunKeepsInv(trace: seq<Table>, ops: seq<Op>, i: nat)
    requires Run(trace, ops) && i < |trace|
    ensures Inv(trace[i])
  {
    hide Step, Inv;
    if i > 0 {
      RunKeepsInv(trace, ops, i - 1);
      StepKeepsInv(trace[i - 1], ops[i - 1], trace[i]);
    } else {
      EmptyHasInv();
    }
  }

  lemma EmptyHasInv()
    ensures Inv(EMPTY)
  {
  }

  /** A key shows as pending exactly while a request under it is in flight, and then both carry one
      stamp. */
  lemma PendingMeansWaiting(trace: seq<Table>, ops: seq<Op>, i: nat, key: Key)
    requires Run(trace, ops) && i < |trace|
    ensures (key in trace[i].shown && trace[i].shown[key].Pending?) <==> key in trace[i].waiting
    ensures key in trace[i].waiting ==> trace[i].shown[key].answer == trace[i].waiting[key].stamp
  {
    RunKeepsInv(trace, ops, i);
  }

  /** The step hands out `stamp`. */
  predicate Begins(t: Table, op: Op, stamp: nat) {
    op.Begin? && op.key !in t.waiting && stamp == t.stamp + 1
  }

  /** The step writes the answer to `stamp`. */
  predicate Finishes(t: Table, op: Op, stamp: nat) {
    op.Finish? && op.stamp == stamp && Current(t, op.key, stamp)
  }

  lemma {:induction false} StampsGrow(trace: seq<Table>, ops: seq<Op>, i: nat, j: nat)
    requires Run(trace, ops) && i <= j < |trace|
    ensures trace[i].stamp <= trace[j].stamp
  {
    hide Step, Inv;
    if i < j {
      StampsGrow(trace, ops, i, j - 1);
      RunKeepsInv(trace, ops, j - 1);
      StepKeepsInv(trace[j - 1], ops[j - 1], trace[j]);
    }
  }

  /** No stamp is handed out twice. */
  lemma StampsAreNew(trace: seq<Table>, ops: seq<Op>, i: nat, j: nat, stamp: nat)
    requires Run(trace, ops) && i < |ops| && j < |ops|
    requires Begins(trace[i], ops[i], stamp) && Begins(trace[j], ops[j], stamp)
    ensures i == j
  {
    if i < j {
      assert Step(trace[i], ops[i], trace[i + 1]);
      StampsGrow(trace, ops, i + 1, j);
    } else if j < i {
      assert Step(trace[j], ops[j], trace[j + 1]);
      StampsGrow(trace, ops, j + 1, i);
    }
  }

  /** A stamp that no key waits for any more, once handed out, is never waited for again. */
  ghost predicate Gone(t: Table, stamp: nat) {
    stamp <= t.stamp && forall key :: !Current(t, key, stamp)
  }

  lemma {:induction false} GoneStaysGone(trace: seq<Table>, ops: seq<Op>, i: nat, j: nat, stamp: nat)
    requires Run(trace, ops) && i <= j < |trace| && Gone(trace[i], stamp)
    ensures Gone(trace[j], stamp)
  {
    if i < j {
      GoneStaysGone(trace, ops, i, j - 1, stamp);
      RunKeepsInv(trace, ops, j - 1);
      GoneStep(trace[j - 1], ops[j - 1], trace[j], stamp);
    }
  }

  lemma GoneStep(t: Table, op: Op, u: Table, stamp: nat)
    requires Inv(t) && Step(t, op, u) && Gone(t, stamp)
    ensures Gone(u, stamp)
  {
  }

  /** Each request is answered at most once: after that, and after it was forgotten, its stamp changes
      nothing. */
  lemma OneAnswerEach(trace: seq<Table>, ops: seq<Op>, i: nat, j: nat, stamp: nat)
    requires Run(trace, ops) && i < j < |ops|
    requires Finishes(trace[i], ops[i], stamp)
    ensures !Finishes(trace[j], ops[j], stamp)
  {
    RunKeepsInv(trace, ops, i);
    assert Step(trace[i], ops[i], trace[i + 1]);
    assert Gone(trace[i + 1], stamp);
    GoneStaysGone(trace, ops, i + 1, j, stamp);
  }

  lemma ForgottenStampsChangeNothing(trace: seq<Table>, ops: seq<Op>, i: nat, j: nat, key: Key, stamp: nat)
    requires Run(trace, ops) && i < j < |ops|
    requires Current(trace[i], key, stamp) && Names(ops[i], key)
    requires ops[j].Finish? && ops[j].stamp == stamp
    ensures trace[j + 1] == trace[j] && stamp in trace[i + 1].cancelled
  {
    RunKeepsInv(trace, ops, i);
    assert Step(trace[i], ops[i], trace[i + 1]);
    assert Gone(trace[i + 1], stamp);
    GoneStaysGone(trace, ops, i + 1, j, stamp);
    assert Step(trace[j], ops[j], trace[j + 1]);
  }

  /** Forgetting removes and stops exactly what it is about: a server's responses in one mode, those of one
      recorded call, or all of a server. */
  lemma ForgetsWhatItNames(t: Table, op: Op, u: Table, key: Key)
    requires Inv(t) && Step(t, op, u) && (op.ForgetMode? || op.ForgetCall? || op.ForgetServer?)
    ensures var gone := key.server == op.id
                        && (op.ForgetMode? ==> key.mode == op.mode)
                        && (op.ForgetCall? ==> key.mode == History && key.name == op.call);
            && (key in u.shown <==> key in t.shown && !gone)
            && (key in u.waiting <==> key in t.waiting && !gone)
            && (key in u.shown ==> u.shown[key] == t.shown[key])
            && (key in t.waiting && t.waiting[key].stamp !in t.cancelled ==>
                  (t.waiting[key].stamp in u.cancelled <==> gone))
  {
  }

  /** A token is kept with the request it was sent for, and a progress filed with one request that was sent
      under its token; nothing else changes. */
  lemma WhereProgressGoes(t: Table, op: Op, u: Table)
    requires Step(t, op, u)
    ensures op.Token? ==> u == t.(waiting := u.waiting) && u.waiting.Keys == t.waiting.Keys
    ensures op.Token? ==> forall key :: key in t.waiting ==>
              u.waiting[key] == if key == op.key then t.waiting[key].(token := Some(op.token)) else t.waiting[key]
    ensures op.Progress? ==> u == t.(waiting := u.waiting) && u.waiting.Keys == t.waiting.Keys
    ensures op.Progress? && (exists key :: key in t.waiting && t.waiting[key].token == Some(op.token)) ==>
              exists key :: key in t.waiting && t.waiting[key].token == Some(op.token)
                && u.waiting[key] == t.waiting[key].(progress := Some(op.update))
                && forall other :: other in t.waiting && other != key ==> u.waiting[other] == t.waiting[other]
    ensures op.Progress? && (forall key :: key in t.waiting ==> t.waiting[key].token != Some(op.token)) ==> u == t
  {
    if op.Progress? && exists key :: key in t.waiting && Expects(t.waiting[key], op.token) {
      var key :| key in t.waiting && Expects(t.waiting[key], op.token)
        && u == t.(waiting := t.waiting[key := t.waiting[key].(progress := Some(op.update))]);
      assert u.waiting[key] == t.waiting[key].(progress := Some(op.update));
    }
  }

  /** Cancelling tells the request in flight under the key to stop, and no other. */
  lemma CancelStopsItsOwn(t: Table, key: Key, u: Table)
    requires Step(t, Cancel(key), u)
    ensures u.shown == t.shown && u.waiting == t.waiting && u.stamp == t.stamp
    ensures forall stamp :: stamp in u.cancelled <==> stamp in t.cancelled || Current(t, key, stamp)
  {
  }

  /** What is shown as answered is what the answer to that very request said. */
  lemma {:induction false} ShownWasAnswered(trace: seq<Table>, ops: seq<Op>, i: nat, key: Key) returns (j: nat)
    requires Run(trace, ops) && i < |trace| && key in trace[i].shown && trace[i].shown[key].Answered?
    ensures j < i && ops[j] == Finish(key, trace[i].shown[key].answer, trace[i].shown[key].body)
    ensures Current(trace[j], key, trace[i].shown[key].answer)
  {
    j := 0;
    if i > 0 {
      var (t, u) := (trace[i - 1], trace[i]);
      assert Step(t, ops[i - 1], u);
      if key in t.shown && t.shown[key] == u.shown[key] {
        j := ShownWasAnswered(trace, ops, i - 1, key);
      } else {
        j := i - 1;
      }
    }
  }

  /** An answer that is expected is shown, and its key is free again; nothing else changes. */
  lemma AnswersAreShown(t: Table, key: Key, stamp: nat, body: Json, u: Table, other: Key)
    requires Step(t, Finish(key, stamp, body), u) && Current(t, key, stamp)
    ensures key !in u.waiting && key in u.shown && u.shown[key] == Answered(body, stamp)
    ensures other != key ==> (other in u.shown <==> other in t.shown) && (other in u.waiting <==> other in t.waiting)
    ensures other != key && other in t.shown ==> u.shown[other] == t.shown[other]
  {
  }

  class ResponseTable {
    var shown: map<Key, Response>
    var waiting: map<Key, Waiting>
    var stamp: nat
    ghost var cancelled: set<nat>

    ghost function View(): Table
      reads this
    {
      Table.Table(shown, waiting, stamp, cancelled)
    }

    constructor ()
      ensures View() == EMPTY && Inv(View())
    {
      shown, waiting, stamp, cancelled := map[], map[], 0, {};
    }

    /** Returns the stamp the answer must carry, unless an earlier request has not been answered. */
    method Begin(key: Key) returns (handed: Option<nat>)
      requires Inv(View())
      modifies this
      ensures Inv(View()) && Step(old(View()), Op.Begin(key), View())
      ensures handed == if key in old(waiting) then None else Some(stamp)
    {
      if key in waiting {
        return None;
      }
      stamp := stamp + 1;
      waiting := waiting[key := Waiting(stamp, None, None)];
      shown := shown[key := Pending(stamp)];
      BeginKeepsInv(old(View()), key, View());
      handed := Some(stamp);
    }

    /** Returns whether the answer was written. */
    method Finish(key: Key, answered: nat, body: Json) returns (written: bool)
      requires Inv(View())
      modifies this
      ensures Inv(View()) && Step(old(View()), Op.Finish(key, answered, body), View())
      ensures written <==> Finishes(old(View()), Op.Finish(key, answered, body), answered)
    {
      FinishIs(View(), key, answered, body);
      written := key in waiting && waiting[key].stamp == answered;
      if written {
        waiting := waiting - {key};
        shown := shown[key := Answered(body, answered)];
        FinishKeepsInv(old(View()), key, answered, body, View());
      }
    }

    /** Returns whether a request was in flight. */
    method Cancel(key: Key) returns (found: bool)
      requires Inv(View())
      modifies this
      ensures Inv(View()) && Step(old(View()), Op.Cancel(key), View())
      ensures found <==> key in old(waiting)
    {
      found := key in waiting;
      if found {
        cancelled := cancelled + {waiting[key].stamp};
      }
    }

    /** Some key whose request was sent with `token`. */
    method FindToken(token: Json) returns (found: Option<Key>)
      ensures found.Some? ==> found.value in waiting && Expects(waiting[found.value], token)
      ensures found.None? ==> forall key :: key in waiting ==> !Expects(waiting[key], token)
    {
      var left := waiting.Keys;
      while left != {}
        invariant left <= waiting.Keys
        invariant forall key :: key in waiting.Keys - left ==> !Expects(waiting[key], token)
        decreases |left|
      {
        var key :| key in left;
        if Expects(waiting[key], token) {
          return Some(key);
        }
        left := left - {key};
      }
      found := None;
    }

    /** Files `update` under a request sent with `token`; returns whether one waits. */
    method Progress(token: Json, update: Json) returns (filed: bool)
      requires Inv(View())
      modifies this
      ensures Inv(View()) && Step(old(View()), Op.Progress(token, update), View())
      ensures filed <==> exists key :: key in old(waiting) && Expects(old(waiting)[key], token)
    {
      var found := FindToken(token);
      filed := found.Some?;
      if filed {
        var key := found.value;
        NotingKeepsInv(View(), key, waiting[key].(progress := Some(update)));
        hide Inv, Expects;
        waiting := waiting[key := waiting[key].(progress := Some(update))];
      }
    }

    method Forget(op: Op)
      requires Inv(View()) && (op.ForgetMode? || op.ForgetCall? || op.ForgetServer?)
      modifies this
      ensures Inv(View()) && Step(old(View()), op, View())
    {
      ForgettingKeepsInv(View(), op);
      hide Inv, Names;
      cancelled := cancelled + set key | key in waiting && Names(op, key) :: waiting[key].stamp;
      shown := map key | key in shown && !Names(op, key) :: shown[key];
      waiting := map key | key in waiting && !Names(op, key) :: waiting[key];
    }
  }

  lemma FinishIs(t: Table, key: Key, stamp: nat, body: Json)
    ensures Finishes(t, Finish(key, stamp, body), stamp) <==> Current(t, key, stamp)
  {
  }
}
