/** The classified differences a comparison reports. */
module Changes {

  datatype Severity = Cosmetic | Compatible | Breaking

  datatype ItemKind = Server | Tool | Resource | ResourceTemplate | Prompt

  /** One step of the place a change is at; the program joins the steps with dots. */
  datatype Step =
    | Key(key: string)
    | Property(name: string)
    | Branch(keyword: string, index: nat)

  datatype Change = Change(severity: Severity, kind: ItemKind, name: string, path: seq<Step>)

  /** The list the comparisons append to. */
  class Report {
    var list: seq<Change>

    constructor ()
      ensures list == []
    {
      list := [];
    }

    method Push(change: Change)
      modifies this
      ensures list == old(list) + [change]
    {
      list := list + [change];
    }
  }

  lemma Associative<T>(x: seq<T>, y: seq<T>, z: seq<T>)
    ensures x + (y + z) == (x + y) + z
  {
  }

  predicate NoBreaking(list: seq<Change>) {
    forall c :: c in list ==> c.severity != Breaking
  }

  lemma NoBreakingParts(x: seq<Change>, y: seq<Change>)
    requires NoBreaking(x + y)
    ensures NoBreaking(x) && NoBreaking(y)
  {
    forall c | c in x || c in y ensures c.severity != Breaking {
      assert c in x + y;
    }
  }
}
