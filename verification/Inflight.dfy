/** Requests waiting for their answers, in both directions, as the transport sees them go by. */
module Inflight {
  import opened Json

  datatype Direction = Outbound | Inbound

  function Other(d: Direction): Direction {
    if d.Outbound? then Inbound else Outbound
  }

  /** A JSON-RPC message; an error may come without an id. */
  datatype Message = Request(id: string, name: string) | Notification(name: string) | Reply(answers: Option<string>)

  /** What went by: a message one side sent, or one of our requests given up on. */
  datatype Entry = Said(sender: Direction, message: Message) | GivenUp(id: string)

  /** The method of each request that waits, by who answers it and its id. */
  type Table = map<(Direction, string), string>

  function Next(table: Table, entry: Entry): Table {
    match entry
    case Said(sender, Request(id, name)) => table[(Other(sender), id) := name]
    case Said(sender, Reply(Some(id))) => table - {(sender, id)}
    case Said(_, _) => table
    case GivenUp(id) => table - {(Inbound, id)}
  }

  function Tabled(log: seq<Entry>): Table {
    if log == [] then map[] else Next(Tabled(log[..|log| - 1]), log[|log| - 1])
  }

  function MethodOf(table: Table, key: (Direction, string)): Option<string> {
    if key in table then Some(table[key]) else None
  }

  predicate AwaitsServer(table: Table) {
    exists key :: key in table && key.0.Inbound?
  }

  class Traced {
    var inflight: Table

    constructor ()
      ensures inflight == map[]
    {
      inflight := map[];
    }

    /** Returns the method an answer is to, when the request is known. */
    method Record(message: Message, direction: Direction) returns (answered: Option<string>)
      modifies this
      ensures inflight == Next(old(inflight), Said(direction, message))
      ensures answered == match message
                          case Reply(Some(id)) => MethodOf(old(inflight), (direction, id))
                          case _ => None
    {
      answered := None;
      var answeredBy := if direction.Outbound? then Inbound else Outbound;
      match message {
        case Request(id, name) => inflight := inflight[(answeredBy, id) := name];
        case Notification(_) =>
        case Reply(answers) =>
          if answers.Some? {
            answered := MethodOf(inflight, (direction, answers.value));
            inflight := inflight - {(direction, answers.value)};
          }
      }
    }

    method Forget(id: string)
      modifies this
      ensures inflight == Next(old(inflight), GivenUp(id))
    {
      inflight := inflight - {(Inbound, id)};
    }
  }

  // --- What the table says ---

  predicate Asks(entry: Entry, sender: Direction, id: string) {
    entry.Said? && entry.sender == sender && entry.message.Request? && entry.message.id == id
  }

  /** `entry` settles request `id`: its answer, or ours being given up on. */
  predicate Settles(entry: Entry, answeredBy: Direction, id: string) {
    || (entry.Said? && entry.sender == answeredBy && entry.message == Reply(Some(id)))
    || (entry == GivenUp(id) && answeredBy.Inbound?)
  }

  /** The request asked at `i` is the last by that side with that id, and nothing settled it since. */
  ghost predicate OpenSince(log: seq<Entry>, sender: Direction, id: string, i: nat) {
    && i < |log| && Asks(log[i], sender, id)
    && forall j :: i < j < |log| ==> !Asks(log[j], sender, id) && !Settles(log[j], Other(sender), id)
  }

  ghost predicate Open(log: seq<Entry>, sender: Direction, id: string) {
    exists i :: OpenSince(log, sender, id, i)
  }

  lemma OpenGrows(log: seq<Entry>, entry: Entry, sender: Direction, id: string, i: nat)
    ensures OpenSince(log + [entry], sender, id, i) <==>
              (i == |log| && Asks(entry, sender, id))
              || (OpenSince(log, sender, id, i) && !Asks(entry, sender, id) && !Settles(entry, Other(sender), id))
  {
    var more := log + [entry];
    if i < |log| && OpenSince(more, sender, id, i) {
      assert more[i] == log[i] && more[|log|] == entry;
      forall j | i < j < |log| ensures !Asks(log[j], sender, id) && !Settles(log[j], Other(sender), id) {
        assert more[j] == log[j];
      }
    }
  }

  /** A request is in the table, under the side that answers it, exactly while it is open; the method
      kept is that of the last such request. The ids one side uses do not disturb the other's. */
  lemma {:induction false} TableIsWhatIsOpen(log: seq<Entry>, sender: Direction, id: string)
    ensures (Other(sender), id) in Tabled(log) <==> Open(log, sender, id)
    ensures forall i: nat :: OpenSince(log, sender, id, i) ==>
              (Other(sender), id) in Tabled(log) && Tabled(log)[(Other(sender), id)] == log[i].message.name
  {
    if log != [] {
      var (before, entry) := (log[..|log| - 1], log[|log| - 1]);
      assert log == before + [entry];
      TableIsWhatIsOpen(before, sender, id);
      forall i: nat ensures OpenSince(log, sender, id, i) <==>
              (i == |before| && Asks(entry, sender, id))
              || (OpenSince(before, sender, id, i) && !Asks(entry, sender, id) && !Settles(entry, Other(sender), id))
      {
        OpenGrows(before, entry, sender, id, i);
      }
      if Asks(entry, sender, id) {
        assert OpenSince(log, sender, id, |before|);
      } else if Open(log, sender, id) {
        var i :| OpenSince(log, sender, id, i);
        assert OpenSince(before, sender, id, i);
      } else if Open(before, sender, id) {
        var i :| OpenSince(before, sender, id, i);
        assert !OpenSince(log, sender, id, i);
      }
    }
  }

  /** The server has something of ours in hand exactly when a request of ours is neither answered nor
      given up on. */
  lemma AwaitsWhatIsOpen(log: seq<Entry>)
    ensures AwaitsServer(Tabled(log)) <==> exists id :: Open(log, Outbound, id)
  {
    forall id ensures (Inbound, id) in Tabled(log) <==> Open(log, Outbound, id) {
      TableIsWhatIsOpen(log, Outbound, id);
    }
    if AwaitsServer(Tabled(log)) {
      var key :| key in Tabled(log) && key.0.Inbound?;
      assert key == (Inbound, key.1);
      assert Open(log, Outbound, key.1);
    }
  }

  /** An answer is said to be to the method of the last request open under its id, and to none when no such
      request is open. */
  lemma AnswersNameTheirRequest(log: seq<Entry>, answeredBy: Direction, id: string, i: nat)
    ensures !Open(log, Other(answeredBy), id) ==> MethodOf(Tabled(log), (answeredBy, id)) == None
    ensures OpenSince(log, Other(answeredBy), id, i) ==>
              MethodOf(Tabled(log), (answeredBy, id)) == Some(log[i].message.name)
  {
    TableIsWhatIsOpen(log, Other(answeredBy), id);
    assert Other(Other(answeredBy)) == answeredBy;
  }
}
