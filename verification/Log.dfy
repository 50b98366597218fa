/** A server's log: rows with ids handed out in order, capped by number and by bytes, and the rows of
    the selected server's log that are open. */
module Log {
  import opened Json

  const MAX_LOG_ROWS: nat := 5000
  const LOG_BYTE_BUDGET: nat := 32 * 1024 * 1024

  datatype Row = Row(id: nat, bytes: nat, agent: bool, sessionBreak: bool)

  datatype Log = Log(rows: seq<Row>, nextId: nat, bytes: nat, hasAgents: bool)

  const EMPTY := Log([], 0, 0, false)

  function Sum(rows: seq<Row>): nat {
    if rows == [] then 0 else rows[0].bytes + Sum(rows[1..])
  }

  /** Within both caps; a single row is whatever its size. */
  predicate Fits(rows: seq<Row>) {
    |rows| <= MAX_LOG_ROWS && (Sum(rows) <= LOG_BYTE_BUDGET || |rows| <= 1)
  }

  /** How many of the oldest rows must go. */
  function Excess(rows: seq<Row>): (n: nat)
    ensures n <= |rows| && (rows != [] ==> n < |rows|)
  {
    if Fits(rows) then 0 else 1 + Excess(rows[1..])
  }

  /** The fewest that leave rows that fit. */
  lemma {:induction false} ExcessIsLeast(rows: seq<Row>)
    ensures Fits(rows[Excess(rows)..])
    ensures forall m :: 0 <= m < Excess(rows) ==> !Fits(rows[m..])
  {
    if Fits(rows) {
      assert rows[0..] == rows;
    } else {
      var n := Excess(rows);
      ExcessIsLeast(rows[1..]);
      hide Fits, Excess;
      assert rows[n..] == rows[1..][n - 1..];
      forall m | 0 <= m < n ensures !Fits(rows[m..]) {
        if m == 0 {
          assert rows[m..] == rows;
        } else {
          assert rows[m..] == rows[1..][m - 1..];
        }
      }
    }
  }

  function Pushed(log: Log, row: Row): Log {
    var rows := Grown(log, row);
    var left := rows[Excess(rows)..];
    Log(left, log.nextId + 1, Sum(left), log.hasAgents || row.agent)
  }

  function Cleared(log: Log): Log {
    log.(rows := [], bytes := 0, hasAgents := false)
  }

  /** `row` separates a new session from the last; it is left out where the last logged nothing. */
  function Broken(log: Log, row: Row): Log {
    if log.rows != [] && !log.rows[|log.rows| - 1].sessionBreak then Pushed(log, row) else log
  }

  function FirstId(log: Log): nat {
    if log.rows == [] then log.nextId else log.rows[0].id
  }

  predicate Live(log: Log, id: nat) {
    exists i :: 0 <= i < |log.rows| && log.rows[i].id == id
  }

  /** Row after row, ids go up by one from `first`. */
  predicate Consecutive(rows: seq<Row>, first: nat) {
    forall i :: 0 <= i < |rows| ==> rows[i].id == first + i
  }

  /** No session is marked twice. */
  predicate OneBreakEach(rows: seq<Row>) {
    forall i :: 0 < i < |rows| ==> !(rows[i - 1].sessionBreak && rows[i].sessionBreak)
  }

  /** What every log keeps. */
  predicate Inv(log: Log) {
    && log.bytes == Sum(log.rows) && Fits(log.rows)
    && FirstId(log) + |log.rows| == log.nextId
    && Consecutive(log.rows, FirstId(log)) && OneBreakEach(log.rows)
    && (forall i :: 0 <= i < |log.rows| && log.rows[i].agent ==> log.hasAgents)
  }

  lemma {:induction false} SumOfParts(x: seq<Row>, y: seq<Row>)
    ensures Sum(x + y) == Sum(x) + Sum(y)
  {
    if x == [] {
      assert x + y == y;
    } else {
      SumOfParts(x[1..], y);
      assert (x + y)[1..] == x[1..] + y;
    }
  }

  /** The rows once `row` is pushed, before any leaves. */
  function Grown(log: Log, row: Row): seq<Row> {
    log.rows + [row.(id := log.nextId)]
  }

  lemma PushKeepsInv(log: Log, row: Row)
    requires Inv(log)
    requires row.sessionBreak ==> log.rows != [] && !log.rows[|log.rows| - 1].sessionBreak
    ensures Inv(Pushed(log, row))
  {
    var rows := Grown(log, row);
    ExcessIsLeast(rows);
    hide Sum, Fits, Excess;
    var n := Excess(rows);
    assert Consecutive(rows, FirstId(log)) && OneBreakEach(rows);
    assert Consecutive(rows[n..], FirstId(log) + n);
    forall i | 0 < i < |rows[n..]| ensures !(rows[n..][i - 1].sessionBreak && rows[n..][i].sessionBreak) {
      assert rows[n..][i] == rows[n + i] && rows[n..][i - 1] == rows[n + i - 1];
    }
  }

  /** The new log is the old one and the new row, less the fewest oldest rows that bring it within
      both caps; the new row stays, under the next id. */
  lemma PushDropsTheFewest(log: Log, row: Row)
    requires Inv(log)
    ensures var (all, left) := (Grown(log, row), Pushed(log, row).rows);
            var dropped := |all| - |left|;
            && 0 <= dropped < |all| && left == all[dropped..] && Fits(left)
            && (forall fewer :: 0 <= fewer < dropped ==> !Fits(all[fewer..]))
            && left[|left| - 1] == row.(id := log.nextId)
  {
    ExcessIsLeast(Grown(log, row));
    hide Sum, Fits, Excess;
  }

  /** What leaves is what is below the first id that stays. */
  lemma PushKeepsTheRest(log: Log, row: Row, id: nat)
    requires Inv(log)
    ensures var after := Pushed(log, row);
            Live(after, id) <==> (Live(log, id) || id == log.nextId) && id >= FirstId(after)
  {
    hide Sum, Fits, Excess, OneBreakEach;
    var (all, after) := (Grown(log, row), Pushed(log, row));
    var n := Excess(all);
    assert Consecutive(all, FirstId(log));
    assert Consecutive(after.rows, FirstId(log) + n);
    LiveRange(log, id);
    LiveIs(after.rows, FirstId(log) + n, id);
  }

  /** Some row was in the log before and is not after. */
  ghost predicate RowsLeft(before: Log, after: Log) {
    exists id :: Live(before, id) && !Live(after, id)
  }

  /** The first id moves on by as many rows as left. */
  lemma PushMovesFirst(log: Log, row: Row)
    requires Inv(log)
    ensures FirstId(Pushed(log, row)) == FirstId(log) + Excess(Grown(log, row))
    ensures RowsLeft(log, Pushed(log, row)) <==> Excess(Grown(log, row)) > 0
  {
    hide Sum, Fits, Excess, OneBreakEach, Live;
    var (all, after) := (Grown(log, row), Pushed(log, row));
    assert Consecutive(all, FirstId(log));
    LiveRange(log, FirstId(log));
    if Excess(all) > 0 {
      PushKeepsTheRest(log, row, FirstId(log));
      assert Live(log, FirstId(log)) && !Live(after, FirstId(log));
    } else {
      forall id: nat | Live(log, id) ensures Live(after, id) {
        LiveRange(log, id);
        PushKeepsTheRest(log, row, id);
      }
    }
  }

  lemma LiveIs(rows: seq<Row>, first: nat, id: nat)
    requires Consecutive(rows, first)
    ensures (exists i :: 0 <= i < |rows| && rows[i].id == id) <==> first <= id < first + |rows|
  {
    if first <= id < first + |rows| {
      assert rows[id - first].id == id;
    }
  }

  /** The live ids are those handed out from the first row's on. */
  lemma LiveRange(log: Log, id: nat)
    requires Inv(log)
    ensures Live(log, id) <==> FirstId(log) <= id < log.nextId
  {
    LiveIs(log.rows, FirstId(log), id);
  }

  /** After a session break the log ends with a separator, unless it is empty; where it already did, nothing
      is added. */
  lemma BreakMarksTheSession(log: Log, row: Row)
    requires Inv(log) && row.sessionBreak
    ensures var after := Broken(log, row);
            && (log.rows != [] ==> after.rows != [] && after.rows[|after.rows| - 1].sessionBreak)
            && (log.rows == [] || log.rows[|log.rows| - 1].sessionBreak ==> after == log)
            && (log.rows != [] && !log.rows[|log.rows| - 1].sessionBreak ==>
                  after.rows[|after.rows| - 1] == row.(id := log.nextId) && after.nextId == log.nextId + 1)
  {
    hide Excess, Sum, Fits, Inv;
    PushDropsTheFewest(log, row);
  }

  datatype Op = Push(row: Row) | Clear | Break(row: Row)

  predicate Proper(op: Op) {
    match op
    case Push(row) => !row.sessionBreak
    case Clear => true
    case Break(row) => row.sessionBreak && !row.agent
  }

  function Step(log: Log, op: Op): Log {
    match op
    case Push(row) => Pushed(log, row)
    case Clear => Cleared(log)
    case Break(row) => Broken(log, row)
  }

  function After(ops: seq<Op>): Log {
    if ops == [] then EMPTY else Step(After(ops[..|ops| - 1]), ops[|ops| - 1])
  }

  /** Over any pushes, clears and session breaks. */
  lemma {:induction false} RunKeepsInv(ops: seq<Op>)
    requires forall i :: 0 <= i < |ops| ==> Proper(ops[i])
    ensures Inv(After(ops))
  {
    hide Pushed;
    if ops != [] {
      var (log, op) := (After(ops[..|ops| - 1]), ops[|ops| - 1]);
      RunKeepsInv(ops[..|ops| - 1]);
      match op {
        case Push(row) => PushKeepsInv(log, row);
        case Break(row) =>
          if log.rows != [] && !log.rows[|log.rows| - 1].sessionBreak {
            PushKeepsInv(log, row);
          }
        case Clear =>
      }
    }
  }

  /** Ids carry on whatever leaves the log: none is handed out twice. */
  lemma {:induction false} IdsCarryOn(ops: seq<Op>, i: nat, j: nat)
    requires i <= j <= |ops|
    ensures After(ops[..i]).nextId <= After(ops[..j]).nextId
    ensures i < j && ops[i].Push? ==> After(ops[..i]).nextId < After(ops[..j]).nextId
  {
    hide Excess, Sum, Grown;
    if i < j {
      IdsCarryOn(ops, i, j - 1);
      assert ops[..j][..j - 1] == ops[..j - 1];
    }
  }

  /** The id of the last agent's row pushed since the log was last cleared. */
  function LastAgent(ops: seq<Op>): Option<nat> {
    if ops == [] then None
    else
      var before := ops[..|ops| - 1];
      match ops[|ops| - 1]
      case Push(row) => if row.agent then Some(After(before).nextId) else LastAgent(before)
      case Clear => None
      case Break(_) => LastAgent(before)
  }

  /** `last` is the id of the last agent's row of the log, or of one that left it. */
  predicate Tracked(log: Log, last: Option<nat>) {
    && (forall i :: 0 <= i < |log.rows| && log.rows[i].agent ==> last.Some? && log.rows[i].id <= last.value)
    && (last.Some? ==> last.value < log.nextId)
    && (last.Some? && last.value >= FirstId(log) ==>
          last.value - FirstId(log) < |log.rows| && log.rows[last.value - FirstId(log)].agent)
  }

  lemma GrownTrack(log: Log, row: Row, last: Option<nat>)
    requires Inv(log) && Tracked(log, last)
    ensures var (all, first) := (Grown(log, row), FirstId(log));
            var now := if row.agent then Some(log.nextId) else last;
            && Consecutive(all, first) && first + |all| == log.nextId + 1
            && (forall i :: 0 <= i < |all| && all[i].agent ==> now.Some? && all[i].id <= now.value)
            && (now.Some? ==> now.value < log.nextId + 1)
            && (now.Some? && now.value >= first ==> now.value - first < |all| && all[now.value - first].agent)
  {
    hide Sum, Fits, OneBreakEach;
  }

  lemma PushKeepsTrack(log: Log, row: Row, last: Option<nat>)
    requires Inv(log) && Tracked(log, last)
    ensures Tracked(Pushed(log, row), if row.agent then Some(log.nextId) else last)
  {
    hide Inv, Fits, Sum, Tracked, Consecutive;
    GrownTrack(log, row, last);
    var (all, after) := (Grown(log, row), Pushed(log, row));
    var n := Excess(all);
    assert n < |all| && after.rows == all[n..] && after.nextId == log.nextId + 1;
    hide Excess, Pushed, Grown, FirstId;
    TailIsTracked(all, FirstId(log), log.nextId + 1, if row.agent then Some(log.nextId) else last, n, after);
  }

  lemma TailIsTracked(all: seq<Row>, first: nat, next: nat, last: Option<nat>, n: nat, after: Log)
    requires Consecutive(all, first) && n < |all| && first + |all| == next
    requires forall i :: 0 <= i < |all| && all[i].agent ==> last.Some? && all[i].id <= last.value
    requires last.Some? ==> last.value < next
    requires last.Some? && last.value >= first ==> last.value - first < |all| && all[last.value - first].agent
    requires after.rows == all[n..] && after.nextId == next
    ensures Tracked(after, last)
  {
    assert FirstId(after) == first + n;
    forall i | 0 <= i < |after.rows| && after.rows[i].agent ensures last.Some? && after.rows[i].id <= last.value {
      assert after.rows[i] == all[n + i];
    }
    if last.Some? && last.value >= first + n {
      assert after.rows[last.value - first - n] == all[last.value - first];
    }
  }

  /** Over any run, the mark is set exactly when an agent's row was pushed since the last clear, and an
      agent's row is in the log exactly when the last of these is. */
  lemma {:induction false} AgentsMark(ops: seq<Op>)
    requires forall i :: 0 <= i < |ops| ==> Proper(ops[i])
    ensures After(ops).hasAgents <==> LastAgent(ops).Some?
    ensures Tracked(After(ops), LastAgent(ops))
  {
    hide Inv, Tracked;
    if ops == [] {
      EmptyIsTracked();
    } else {
      var (before, op) := (ops[..|ops| - 1], ops[|ops| - 1]);
      AgentsMark(before);
      RunKeepsInv(before);
      match op {
        case Push(row) => PushKeepsTrack(After(before), row, LastAgent(before));
        case Break(row) => PushKeepsTrack(After(before), row, LastAgent(before));
        case Clear => ClearKeepsTrack(After(before));
      }
    }
  }

  lemma EmptyIsTracked()
    ensures Tracked(EMPTY, None)
  {
  }

  lemma ClearKeepsTrack(log: Log)
    ensures Tracked(Cleared(log), None)
  {
  }

  predicate HoldsAgents(log: Log) {
    exists i :: 0 <= i < |log.rows| && log.rows[i].agent
  }

  /** The mark says whether the log holds rows of an agent exactly while none was pushed since the last
      clear or the last one pushed is still in the log. */
  lemma TheMarkIsRight(ops: seq<Op>)
    requires forall i :: 0 <= i < |ops| ==> Proper(ops[i])
    ensures (After(ops).hasAgents <==> HoldsAgents(After(ops))) <==>
              LastAgent(ops).None? || LastAgent(ops).value >= FirstId(After(ops))
  {
    hide After, LastAgent, FirstId;
    AgentsMark(ops);
    RunKeepsInv(ops);
    var (log, last) := (After(ops), LastAgent(ops));
    assert HoldsAgents(log) ==> exists i :: 0 <= i < |log.rows| && log.rows[i].agent && log.rows[i].id >= FirstId(log);
    if last.Some? && last.value >= FirstId(log) {
      assert log.rows[last.value - FirstId(log)].agent;
    }
  }

  /** A row of an agent, and `n` other rows. */
  function Filled(agent: Row, other: Row, n: nat): seq<Op> {
    [Push(agent)] + seq(n, _ => Push(other))
  }

  lemma {:induction false} FilledIds(agent: Row, other: Row, n: nat)
    requires agent.agent && !other.agent
    ensures LastAgent(Filled(agent, other, n)) == Some(0) && After(Filled(agent, other, n)).nextId == n + 1
  {
    hide Excess;
    var ops := Filled(agent, other, n);
    if n == 0 {
      assert ops[..|ops| - 1] == [];
    } else {
      assert ops[..|ops| - 1] == Filled(agent, other, n - 1);
      FilledIds(agent, other, n - 1);
    }
  }

  /** A full log of other rows: the agent's row left it, and the mark says it is there. */
  lemma TheMarkOutlivesTheRow(agent: Row, other: Row)
    requires agent.agent && !agent.sessionBreak && !other.agent && !other.sessionBreak
    ensures var log := After(Filled(agent, other, MAX_LOG_ROWS)); log.hasAgents && !HoldsAgents(log)
  {
    var ops := Filled(agent, other, MAX_LOG_ROWS);
    FilledIds(agent, other, MAX_LOG_ROWS);
    RunKeepsInv(ops);
    AgentsMark(ops);
    TheMarkIsRight(ops);
    hide After, LastAgent, Sum;
  }

  function SaturatingSub(a: nat, b: nat): nat {
    if a < b then 0 else a - b
  }

  class LogBuffer {
    var rows: seq<Row>
    var nextId: nat
    var bytes: nat
    var hasAgents: bool

    function View(): Log
      reads this
    {
      Log(rows, nextId, bytes, hasAgents)
    }

    constructor ()
      ensures View() == EMPTY
    {
      rows, nextId, bytes, hasAgents := [], 0, 0, false;
    }

    /** Drops the oldest rows beyond the caps; returns how many. */
    method Trim() returns (excess: nat)
      requires rows != [] && bytes == Sum(rows)
      modifies this`rows, this`bytes
      ensures excess == Excess(old(rows)) && rows == old(rows)[excess..] && bytes == Sum(rows)
    {
      excess := 0;
      assert rows[0..] == rows;
      while !(|rows| - excess <= MAX_LOG_ROWS && (bytes <= LOG_BYTE_BUDGET || |rows| - excess == 1))
        invariant rows == old(rows) && excess < |rows| && bytes == Sum(rows[excess..])
        invariant Excess(rows) == excess + Excess(rows[excess..])
        decreases |rows| - excess
      {
        assert rows[excess..][1..] == rows[excess + 1..];
        assert !Fits(rows[excess..]);
        bytes := SaturatingSub(bytes, rows[excess].bytes);
        excess := excess + 1;
      }
      assert Fits(rows[excess..]);
      rows := rows[excess..];
    }

    /** Returns how many rows were dropped. */
    method Push(row: Row) returns (excess: nat)
      requires Inv(View())
      modifies this
      ensures View() == Pushed(old(View()), row)
      ensures excess == Excess(Grown(old(View()), row))
    {
      assert bytes == Sum(rows);
      hide Inv, Excess, Fits;
      SumOfParts(rows, [row.(id := nextId)]);
      hasAgents := hasAgents || row.agent;
      rows := rows + [row.(id := nextId)];
      nextId := nextId + 1;
      bytes := bytes + row.bytes;
      excess := Trim();
    }

    method Clear()
      modifies this
      ensures View() == Cleared(old(View()))
    {
      rows := [];
      bytes := 0;
      hasAgents := false;
    }

    method Break(row: Row) returns (excess: nat)
      requires Inv(View())
      modifies this
      ensures View() == Broken(old(View()), row)
      ensures excess == |old(rows)| + (View().nextId - old(nextId)) - |rows|
    {
      if rows != [] && !rows[|rows| - 1].sessionBreak {
        excess := Push(row);
      } else {
        excess := 0;
      }
    }

    /** The index of the row with id `id`, by binary search. */
    method Find(id: nat) returns (ix: Option<nat>)
      requires Inv(View())
      ensures ix.Some? <==> Live(View(), id)
      ensures ix.Some? ==> ix.value < |rows| && rows[ix.value].id == id && ix.value == id - FirstId(View())
    {
      var (low, high) := (0, |rows|);
      while low < high
        invariant 0 <= low <= high <= |rows|
        invariant forall i :: 0 <= i < low ==> rows[i].id < id
        invariant forall i :: high <= i < |rows| ==> rows[i].id > id
      {
        var mid := (low + high) / 2;
        if rows[mid].id == id {
          return Some(mid);
        } else if rows[mid].id < id {
          low := mid + 1;
        } else {
          high := mid;
        }
      }
      ix := None;
    }
  }

  // --- Open rows ---

  /** The logs of the servers, which one is selected, and its open rows. */
  datatype Window = Window(logs: seq<Log>, selected: Option<nat>, expanded: set<nat>)

  datatype Act =
    | Appending(ix: nat, row: Row)
    | Opening(ix: nat, row: Row)     // a session of server `ix` starts
    | Clearing
    | Toggling(id: nat)
    | Filtering                      // another filter or level
    | Selecting(ix: nat)
    | Adding
    | Removing(ix: nat)

  function Selected(w: Window): Option<Log> {
    if w.selected.Some? && w.selected.value < |w.logs| then Some(w.logs[w.selected.value]) else None
  }

  /** The log of server `ix` becomes `log`: of the selected server's open rows, those stay whose rows
      did. */
  function Grew(w: Window, ix: nat, log: Log): Window
    requires ix < |w.logs|
  {
    var left := if w.selected == Some(ix) then set id | id in w.expanded && id >= FirstId(log) else w.expanded;
    w.(logs := w.logs[ix := log], expanded := left)
  }

  function SelectedWithout(w: Window, ix: nat): Option<nat>
    requires ix < |w.logs|
  {
    match w.selected
    case None => None
    case Some(s) =>
      if s == ix then (if |w.logs| == 1 then None else Some(if ix < |w.logs| - 1 then ix else |w.logs| - 2))
      else if s > ix then Some(s - 1) else Some(s)
  }

  function ActAfter(w: Window, act: Act): Window {
    match act
    case Appending(ix, row) => if ix < |w.logs| then Grew(w, ix, Pushed(w.logs[ix], row)) else w
    case Opening(ix, row) => if ix < |w.logs| then Grew(w, ix, Broken(w.logs[ix], row)) else w
    case Clearing =>
      if Selected(w).None? then w
      else w.(logs := w.logs[w.selected.value := Cleared(w.logs[w.selected.value])], expanded := {})
    case Toggling(id) => w.(expanded := if id in w.expanded then w.expanded - {id} else w.expanded + {id})
    case Filtering => w.(expanded := {})
    case Selecting(ix) =>
      if ix < |w.logs|
      then w.(selected := Some(ix), expanded := if w.selected != Some(ix) then {} else w.expanded)
      else w
    case Adding => w.(logs := w.logs + [EMPTY])
    case Removing(ix) =>
      if ix < |w.logs| then
        w.(logs := w.logs[..ix] + w.logs[ix + 1..], selected := SelectedWithout(w, ix),
           expanded := if w.selected == Some(ix) then {} else w.expanded)
      else w
  }

  /** Only rows of the selected server's log are toggled, and no row passes for a separator. */
  predicate Allowed(w: Window, act: Act) {
    match act
    case Appending(_, row) => !row.sessionBreak
    case Opening(_, row) => row.sessionBreak && !row.agent
    case Toggling(id) => Selected(w).Some? && Live(Selected(w).value, id)
    case _ => true
  }

  predicate WindowInv(w: Window) {
    && (forall ix :: 0 <= ix < |w.logs| ==> Inv(w.logs[ix]))
    && (w.selected.Some? ==> w.selected.value < |w.logs|)
    && (forall id :: id in w.expanded ==> w.selected.Some? && Live(w.logs[w.selected.value], id))
  }

  function ActsAfter(w: Window, acts: seq<Act>): Window {
    if acts == [] then w else ActAfter(ActsAfter(w, acts[..|acts| - 1]), acts[|acts| - 1])
  }

  predicate AllAllowed(w: Window, acts: seq<Act>) {
    acts == [] || (AllAllowed(w, acts[..|acts| - 1]) && Allowed(ActsAfter(w, acts[..|acts| - 1]), acts[|acts| - 1]))
  }

  lemma GrewKeepsInv(w: Window, ix: nat, log: Log)
    requires WindowInv(w) && ix < |w.logs| && Inv(log) && log.nextId >= w.logs[ix].nextId
    ensures WindowInv(Grew(w, ix, log))
  {
    var v := Grew(w, ix, log);
    forall id | id in v.expanded ensures v.selected.Some? && Live(v.logs[v.selected.value], id) {
      LiveRange(w.logs[w.selected.value], id);
      LiveRange(v.logs[v.selected.value], id);
    }
  }

  lemma ActKeepsInv(w: Window, act: Act)
    requires WindowInv(w) && Allowed(w, act)
    ensures WindowInv(ActAfter(w, act))
  {
    hide Inv, Live, Pushed;
    match act {
      case Appending(ix, row) =>
        if ix < |w.logs| {
          PushKeepsInv(w.logs[ix], row);
          PushNextId(w.logs[ix], row);
          GrewKeepsInv(w, ix, Pushed(w.logs[ix], row));
        }
      case Opening(ix, row) =>
        if ix < |w.logs| {
          var log := w.logs[ix];
          if log.rows != [] && !log.rows[|log.rows| - 1].sessionBreak {
            PushKeepsInv(log, row);
            PushNextId(log, row);
          }
          GrewKeepsInv(w, ix, Broken(log, row));
        }
      case Clearing =>
        if Selected(w).Some? {
          ClearKeepsInv(w.logs[w.selected.value]);
        }
      case Adding => EmptyHasInv();
      case _ =>
    }
  }

  lemma PushNextId(log: Log, row: Row)
    ensures Pushed(log, row).nextId == log.nextId + 1
  {
  }

  lemma ClearKeepsInv(log: Log)
    ensures Inv(Cleared(log))
  {
  }

  lemma EmptyHasInv()
    ensures Inv(EMPTY)
  {
  }

  /** However rows come and go, every open row is a row of the selected server's log. */
  lemma {:induction false} OpenRowsAreLive(w: Window, acts: seq<Act>)
    requires WindowInv(w) && AllAllowed(w, acts)
    ensures WindowInv(ActsAfter(w, acts))
  {
    hide WindowInv, ActAfter, Allowed;
    if acts != [] {
      OpenRowsAreLive(w, acts[..|acts| - 1]);
      ActKeepsInv(ActsAfter(w, acts[..|acts| - 1]), acts[|acts| - 1]);
    }
  }

  /** An open row stays open exactly while it stays in the log; rows of another server's log that
      leave it close nothing. */
  lemma OpenRowsStay(w: Window, ix: nat, row: Row, id: nat)
    requires WindowInv(w) && ix < |w.logs| && !row.sessionBreak
    ensures var v := ActAfter(w, Appending(ix, row));
            id in v.expanded <==> id in w.expanded && Live(v.logs[v.selected.value], id)
  {
    PushKeepsInv(w.logs[ix], row);
    PushNextId(w.logs[ix], row);
    var v := ActAfter(w, Appending(ix, row));
    if id in w.expanded {
      LiveRange(w.logs[w.selected.value], id);
      LiveRange(v.logs[v.selected.value], id);
    }
    hide Inv, Live, Pushed;
  }

  /** What each act makes of the open rows: a toggle turns one over, another filter or server closes all of
      them, and clearing empties the log of the server selected, and of no other. */
  lemma WhatActsOpen(w: Window, act: Act, id: nat)
    ensures var v := ActAfter(w, act);
            && (act.Toggling? ==> v.logs == w.logs && v.selected == w.selected)
            && (act.Toggling? ==> (id in v.expanded <==> if id == act.id then id !in w.expanded else id in w.expanded))
            && (act.Filtering? ==> v == w.(expanded := {}))
            && (act.Selecting? && act.ix < |w.logs| ==> v.logs == w.logs && v.selected == Some(act.ix))
            && (act.Selecting? && act.ix < |w.logs| ==>
                  v.expanded == if w.selected == Some(act.ix) then w.expanded else {})
            && (act.Adding? ==> v.logs == w.logs + [EMPTY] && v.selected == w.selected && v.expanded == w.expanded)
            && (act.Clearing? ==> v.selected == w.selected && |v.logs| == |w.logs|)
            && (act.Clearing? && Selected(w).Some? ==>
                  && v.expanded == {} && Selected(v).value.rows == []
                  && Selected(v).value.nextId == Selected(w).value.nextId)
            && (act.Clearing? ==> forall i :: 0 <= i < |w.logs| && Some(i) != w.selected ==> v.logs[i] == w.logs[i])
  {
  }

  /** Taking out another server leaves the one selected, and its open rows. */
  lemma RemovingAnother(w: Window, ix: nat)
    requires WindowInv(w) && ix < |w.logs|
    ensures var v := ActAfter(w, Removing(ix));
            && |v.logs| == |w.logs| - 1
            && (w.selected.Some? && w.selected != Some(ix) ==> Selected(v) == Selected(w) && v.expanded == w.expanded)
            && (w.selected == Some(ix) ==> v.expanded == {})
            && (w.selected == Some(ix) ==>
                  Selected(v) == if ix + 1 < |w.logs| then Some(w.logs[ix + 1])
                                 else if ix > 0 then Some(w.logs[ix - 1]) else None)
            && (w.selected.None? ==> v.selected.None?)
  {
    hide Inv, Live;
    var left := w.logs[..ix] + w.logs[ix + 1..];
    assert forall i :: 0 <= i < ix ==> left[i] == w.logs[i];
    assert forall i :: ix <= i < |left| ==> left[i] == w.logs[i + 1];
  }

  class Drawer {
    var logs: seq<Log>
    var selected: Option<nat>
    var expanded: set<nat>

    function View(): Window
      reads this
    {
      Window(logs, selected, expanded)
    }

    constructor ()
      ensures View() == Window([], None, {}) && WindowInv(View())
    {
      logs, selected, expanded := [], None, {};
    }

    /** Rows below `before` left the log of server `ix`. */
    method Leave(ix: nat, before: nat)
      modifies this`expanded
      ensures expanded == if selected == Some(ix) then set id | id in old(expanded) && id >= before else old(expanded)
    {
      if selected == Some(ix) {
        expanded := set id | id in expanded && id >= before;
      }
    }

    /** When rows left the log, returns the id that every one of them is below. */
    method Append(ix: nat, row: Row) returns (before: Option<nat>)
      requires WindowInv(View()) && Allowed(View(), Appending(ix, row))
      modifies this
      ensures View() == ActAfter(old(View()), Appending(ix, row)) && WindowInv(View())
      ensures before.Some? <==> ix < |old(logs)| && RowsLeft(old(logs)[ix], logs[ix])
      ensures before.Some? ==> before.value == FirstId(logs[ix])
    {
      before := None;
      if ix >= |logs| {
        return;
      }
      ActKeepsInv(View(), Appending(ix, row));
      NoneLeft(View(), ix);
      PushMovesFirst(logs[ix], row);
      hide Inv, Live, RowsLeft, Excess;
      var excess, after := Excess(Grown(logs[ix], row)), Pushed(logs[ix], row);
      logs := logs[ix := after];
      if excess > 0 {
        before := Some(FirstId(after));
        Leave(ix, before.value);
      }
    }

    /** A session of server `ix` starts; `row` is its separator. */
    method OpenSession(ix: nat, row: Row) returns (before: Option<nat>)
      requires WindowInv(View()) && Allowed(View(), Opening(ix, row))
      modifies this
      ensures View() == ActAfter(old(View()), Opening(ix, row)) && WindowInv(View())
      ensures before.Some? <==> ix < |old(logs)| && RowsLeft(old(logs)[ix], logs[ix])
      ensures before.Some? ==> before.value == FirstId(logs[ix])
    {
      before := None;
      if ix >= |logs| {
        return;
      }
      ActKeepsInv(View(), Opening(ix, row));
      NoneLeft(View(), ix);
      PushMovesFirst(logs[ix], row);
      hide Inv, Live, Excess;
      var breaks := logs[ix].rows != [] && !logs[ix].rows[|logs[ix].rows| - 1].sessionBreak;
      var excess, after := if breaks then Excess(Grown(logs[ix], row)) else 0, Broken(logs[ix], row);
      logs := logs[ix := after];
      if excess > 0 {
        before := Some(FirstId(after));
        Leave(ix, before.value);
      }
    }

    method Toggle(id: nat)
      requires WindowInv(View()) && Allowed(View(), Toggling(id))
      modifies this`expanded
      ensures View() == ActAfter(old(View()), Toggling(id)) && WindowInv(View())
    {
      ActKeepsInv(View(), Toggling(id));
      if id in expanded {
        expanded := expanded - {id};
      } else {
        expanded := expanded + {id};
      }
    }

    method ClearLog()
      requires WindowInv(View())
      modifies this
      ensures View() == ActAfter(old(View()), Clearing) && WindowInv(View())
    {
      ActKeepsInv(View(), Clearing);
      if selected.Some? {
        logs := logs[selected.value := Cleared(logs[selected.value])];
        expanded := {};
      }
    }

    method Select(ix: nat)
      requires WindowInv(View())
      modifies this
      ensures View() == ActAfter(old(View()), Selecting(ix)) && WindowInv(View())
    {
      ActKeepsInv(View(), Selecting(ix));
      if ix < |logs| {
        if selected != Some(ix) {
          expanded := {};
        }
        selected := Some(ix);
      }
    }
  }

  lemma NoneLeft(w: Window, ix: nat)
    requires WindowInv(w) && ix < |w.logs|
    ensures w.selected == Some(ix) ==> forall id :: id in w.expanded ==> id >= FirstId(w.logs[ix])
  {
    if w.selected == Some(ix) {
      forall id | id in w.expanded ensures id >= FirstId(w.logs[ix]) {
        LiveRange(w.logs[ix], id);
      }
    }
  }
}
