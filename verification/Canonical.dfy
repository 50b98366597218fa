/** JSON as it is written, with its keys in some order, and the canonical form a digest is taken of. */
module Canonical {
  import opened Json

  /** `Atom` is any value but an array or an object. */
  datatype Value = Atom(atom: Json) | List(items: seq<Value>) | Entries(entries: seq<(string, Value)>)

  function Keys(entries: seq<(string, Value)>): seq<string> {
    seq(|entries|, i requires 0 <= i < |entries| => entries[i].0)
  }

  predicate Distinct(keys: seq<string>) {
    forall i, j :: 0 <= i < j < |keys| ==> keys[i] != keys[j]
  }

  predicate WellFormed(v: Value) {
    match v
    case Atom(atom) => !atom.Array? && !atom.Object?
    case List(items) => forall i :: 0 <= i < |items| ==> WellFormed(items[i])
    case Entries(entries) => Distinct(Keys(entries)) && forall i :: 0 <= i < |entries| ==> WellFormed(entries[i].1)
  }

  /** Where `key` is, for the last time. */
  function At(entries: seq<(string, Value)>, key: string): (i: nat)
    requires key in Keys(entries)
    ensures i < |entries| && entries[i].0 == key
    ensures forall j :: i < j < |entries| ==> entries[j].0 != key
  {
    var n := |entries| - 1;
    if entries[n].0 == key then n
    else
      assert key in Keys(entries[..n]) by {
        var j :| 0 <= j < |entries| && Keys(entries)[j] == key;
        assert Keys(entries[..n])[j] == key;
      }
      At(entries[..n], key)
  }

  // --- What a written value means: the order of keys is gone ---

  function Meaning(v: Value): Json {
    match v
    case Atom(atom) => atom
    case List(items) => Array(seq(|items|, i requires 0 <= i < |items| => Meaning(items[i])))
    case Entries(entries) => Object(map key | key in Keys(entries) :: Meaning(entries[At(entries, key)].1))
  }

  // --- The canonical form ---

  function Insert(e: (string, Value), entries: seq<(string, Value)>): seq<(string, Value)> {
    if entries == [] then [e]
    else if Leq(e.0, entries[0].0) then [e] + entries
    else [entries[0]] + Insert(e, entries[1..])
  }

  /** Sorted by key. */
  function SortByKey(entries: seq<(string, Value)>): seq<(string, Value)> {
    if entries == [] then [] else Insert(entries[0], SortByKey(entries[1..]))
  }

  lemma {:induction false} InsertKeeps(e: (string, Value), entries: seq<(string, Value)>)
    ensures multiset(Insert(e, entries)) == multiset(entries) + multiset{e}
    ensures |Insert(e, entries)| == |entries| + 1
  {
    if entries == [] {
    } else if Leq(e.0, entries[0].0) {
    } else {
      InsertKeeps(e, entries[1..]);
      assert entries == [entries[0]] + entries[1..];
    }
  }

  lemma {:induction false} SortKeeps(entries: seq<(string, Value)>)
    ensures multiset(SortByKey(entries)) == multiset(entries) && |SortByKey(entries)| == |entries|
  {
    if entries != [] {
      SortKeeps(entries[1..]);
      InsertKeeps(entries[0], SortByKey(entries[1..]));
      assert entries == [entries[0]] + entries[1..];
    }
  }

  lemma SortHas(entries: seq<(string, Value)>, i: nat)
    requires i < |SortByKey(entries)|
    ensures SortByKey(entries)[i] in entries
  {
    SortKeeps(entries);
    assert SortByKey(entries)[i] in multiset(SortByKey(entries));
  }

  /** Object keys sorted, at every depth. */
  function Canonicalize(v: Value): Value {
    match v
    case Atom(_) => v
    case List(items) => List(seq(|items|, i requires 0 <= i < |items| => Canonicalize(items[i])))
    case Entries(entries) =>
      var sorted := SortByKey(entries);
      Entries(seq(|sorted|, i requires 0 <= i < |sorted| =>
        SortHas(entries, i);
        (sorted[i].0, Canonicalize(sorted[i].1))))
  }

  /** The one way to write `j` with its keys in order. */
  function Ordered(j: Json): Value {
    match j
    case Array(items) => List(seq(|items|, i requires 0 <= i < |items| => Ordered(items[i])))
    case Object(fields) =>
      var keys := Sorted(fields.Keys);
      Entries(seq(|keys|, i requires 0 <= i < |keys| => assert keys[i] in keys; (keys[i], Ordered(fields[keys[i]]))))
    case _ => Atom(j)
  }

  lemma AtOnly(entries: seq<(string, Value)>, i: nat)
    requires Distinct(Keys(entries)) && i < |entries|
    ensures entries[i].0 in Keys(entries) && At(entries, entries[i].0) == i
  {
    assert Keys(entries)[i] == entries[i].0;
    var j := At(entries, entries[i].0);
    assert Keys(entries)[j] == Keys(entries)[i];
  }

  /** The entries of an object written in order. */
  lemma OrderedEntries(fields: map<string, Json>)
    ensures var entries := Ordered(Object(fields)).entries;
            && Keys(entries) == Sorted(fields.Keys) && Distinct(Keys(entries))
            && forall i :: 0 <= i < |entries| ==>
                 entries[i].0 in fields && entries[i].1 == Ordered(fields[entries[i].0])
  {
    SortedIsOrdered(fields.Keys);
    var (keys, entries) := (Sorted(fields.Keys), Ordered(Object(fields)).entries);
    forall i | 0 <= i < |entries|
      ensures entries[i].0 == keys[i] && keys[i] in fields && entries[i].1 == Ordered(fields[keys[i]])
    {
      assert keys[i] in keys;
    }
  }

  lemma EntriesMean(entries: seq<(string, Value)>, fields: map<string, Json>)
    requires forall key :: key in Keys(entries) <==> key in fields
    requires forall i :: 0 <= i < |entries| ==> entries[i].0 in fields && Meaning(entries[i].1) == fields[entries[i].0]
    ensures Meaning(Entries(entries)) == Object(fields)
  {
    assert Meaning(Entries(entries)).fields == fields;
  }

  lemma {:induction false} MeaningOfOrdered(j: Json)
    ensures Meaning(Ordered(j)) == j && WellFormed(Ordered(j))
  {
    match j {
      case Array(items) =>
        forall i | 0 <= i < |items| ensures Meaning(Ordered(items[i])) == items[i] && WellFormed(Ordered(items[i])) {
          MeaningOfOrdered(items[i]);
        }
        assert Meaning(Ordered(j)).items == items;
      case Object(fields) => MeaningOfOrderedObject(fields);
      case _ =>
    }
  }

  lemma {:induction false} MeaningOfOrderedObject(fields: map<string, Json>)
    ensures Meaning(Ordered(Object(fields))) == Object(fields) && WellFormed(Ordered(Object(fields)))
    decreases Object(fields), 0
  {
    OrderedEntries(fields);
    var entries := Ordered(Object(fields)).entries;
    forall i | 0 <= i < |entries|
      ensures entries[i].0 in fields && Meaning(entries[i].1) == fields[entries[i].0] && WellFormed(entries[i].1)
    {
      MeaningOfOrdered(fields[entries[i].0]);
    }
    assert Ordered(Object(fields)) == Entries(entries);
    hide Ordered, Meaning;
    EntriesMean(entries, fields);
  }

  // --- Canonical is ordered ---

  /** `key` comes before every key of `entries`. */
  predicate Below(key: string, entries: seq<(string, Value)>) {
    forall i :: 0 <= i < |entries| ==> Leq(key, entries[i].0) && key != entries[i].0
  }

  predicate Rising(entries: seq<(string, Value)>) {
    entries == [] || (Below(entries[0].0, entries[1..]) && Rising(entries[1..]))
  }

  lemma {:induction false} InsertBelow(key: string, e: (string, Value), entries: seq<(string, Value)>)
    requires Below(key, entries) && Leq(key, e.0) && key != e.0
    ensures Below(key, Insert(e, entries))
  {
    hide Leq;
    if entries != [] && !Leq(e.0, entries[0].0) {
      InsertBelow(key, e, entries[1..]);
    }
  }

  lemma {:induction false} InsertRising(e: (string, Value), entries: seq<(string, Value)>)
    requires Rising(entries) && forall i :: 0 <= i < |entries| ==> entries[i].0 != e.0
    ensures Rising(Insert(e, entries))
  {
    hide Leq;
    if entries != [] {
      var rest := entries[1..];
      if Leq(e.0, entries[0].0) {
        forall i | 0 <= i < |rest| ensures Leq(e.0, rest[i].0) {
          LeqTransitive(e.0, entries[0].0, rest[i].0);
        }
        assert forall i :: 0 < i < |entries| ==> entries[i] == rest[i - 1];
        assert ([e] + entries)[1..] == entries;
      } else {
        LeqTotal(e.0, entries[0].0);
        InsertRising(e, rest);
        InsertBelow(entries[0].0, e, rest);
        assert ([entries[0]] + Insert(e, rest))[1..] == Insert(e, rest);
      }
    }
  }

  lemma {:induction false} SortRising(entries: seq<(string, Value)>)
    requires Distinct(Keys(entries))
    ensures Rising(SortByKey(entries))
  {
    if entries != [] {
      var rest := entries[1..];
      assert forall i :: 0 <= i < |rest| ==> Keys(rest)[i] == Keys(entries)[i + 1];
      SortRising(rest);
      forall i | 0 <= i < |SortByKey(rest)| ensures SortByKey(rest)[i].0 != entries[0].0 {
        SortHas(rest, i);
        var j :| 0 <= j < |rest| && rest[j] == SortByKey(rest)[i];
        assert Keys(entries)[0] != Keys(entries)[j + 1];
      }
      InsertRising(entries[0], SortByKey(rest));
    }
  }

  function KeySet(entries: seq<(string, Value)>): set<string> {
    set key | key in Keys(entries)
  }

  lemma FirstIsLeast(entries: seq<(string, Value)>)
    requires Rising(entries) && entries != []
    ensures IsLeast(entries[0].0, KeySet(entries))
    ensures KeySet(entries) - {entries[0].0} == KeySet(entries[1..])
  {
    hide Leq, Rising;
    var (first, rest) := (entries[0].0, entries[1..]);
    LeqTotal(first, first);
    assert Below(first, rest) by {
      RisingStarts(entries);
    }
    forall key ensures key in KeySet(entries) <==> key == first || key in KeySet(rest) {
      assert Keys(entries) == [first] + Keys(rest);
    }
    forall key | key in KeySet(rest) ensures Leq(first, key) && key != first {
      var i :| 0 <= i < |rest| && Keys(rest)[i] == key;
      assert rest[i].0 == key;
    }
  }

  lemma RisingStarts(entries: seq<(string, Value)>)
    requires Rising(entries) && entries != []
    ensures Below(entries[0].0, entries[1..])
  {
  }

  lemma {:induction false} RisingKeys(entries: seq<(string, Value)>)
    requires Rising(entries)
    ensures Keys(entries) == Sorted(KeySet(entries))
  {
    if entries == [] {
      assert KeySet(entries) == {};
    } else {
      FirstIsLeast(entries);
      RisingKeys(entries[1..]);
      hide Leq, Rising, Below, IsLeast, KeySet;
      LeastUnique(KeySet(entries));
      assert Keys(entries) == [entries[0].0] + Keys(entries[1..]);
    }
  }

  /** However a value is written, its canonical form is its meaning written in order. */
  lemma {:induction false} CanonicalIsOrdered(v: Value)
    requires WellFormed(v)
    ensures Canonicalize(v) == Ordered(Meaning(v))
  {
    match v {
      case Atom(atom) =>
      case List(items) =>
        forall i | 0 <= i < |items| ensures Canonicalize(items[i]) == Ordered(Meaning(items[i])) {
          CanonicalIsOrdered(items[i]);
        }
        assert Canonicalize(v).items == Ordered(Meaning(v)).items;
      case Entries(entries) => CanonicalObjectIsOrdered(entries);
    }
  }

  lemma SameKeys(x: seq<(string, Value)>, y: seq<(string, Value)>)
    requires multiset(x) == multiset(y)
    ensures KeySet(x) <= KeySet(y)
  {
    forall key | key in Keys(x) ensures key in Keys(y) {
      var i :| 0 <= i < |x| && Keys(x)[i] == key;
      assert x[i] in multiset(x);
      var j :| 0 <= j < |y| && y[j] == x[i];
      assert Keys(y)[j] == key;
    }
  }

  lemma SortedKeysAre(entries: seq<(string, Value)>)
    requires Distinct(Keys(entries))
    ensures Keys(SortByKey(entries)) == Sorted(KeySet(entries))
  {
    hide Sorted, SortByKey, Rising, Distinct, Keys, KeySet;
    SortRising(entries);
    SortKeeps(entries);
    RisingKeys(SortByKey(entries));
    SameKeys(entries, SortByKey(entries));
    SameKeys(SortByKey(entries), entries);
    assert KeySet(SortByKey(entries)) == KeySet(entries);
  }

  lemma SortedMeans(entries: seq<(string, Value)>, i: nat) returns (k: nat)
    requires Distinct(Keys(entries)) && i < |SortByKey(entries)|
    ensures k < |entries| && entries[k] == SortByKey(entries)[i]
    ensures entries[k].0 in Keys(entries) && At(entries, entries[k].0) == k
  {
    SortHas(entries, i);
    k :| 0 <= k < |entries| && entries[k] == SortByKey(entries)[i];
    AtOnly(entries, k);
  }

  lemma {:induction false} CanonicalEntriesAre(entries: seq<(string, Value)>, fields: map<string, Json>, i: nat)
    requires WellFormed(Entries(entries)) && Meaning(Entries(entries)) == Object(fields) && i < |SortByKey(entries)|
    ensures SortByKey(entries)[i].0 in fields
    ensures Canonicalize(SortByKey(entries)[i].1) == Ordered(fields[SortByKey(entries)[i].0])
    decreases Entries(entries), 0
  {
    hide SortByKey, Canonicalize, Ordered, Sorted;
    var k := SortedMeans(entries, i);
    CanonicalIsOrdered(entries[k].1);
  }

  lemma CanonicalEntries(entries: seq<(string, Value)>)
    ensures Canonicalize(Entries(entries)).Entries?
    ensures var (sorted, written) := (SortByKey(entries), Canonicalize(Entries(entries)).entries);
            && |written| == |sorted|
            && forall i :: 0 <= i < |sorted| ==> written[i] == (sorted[i].0, Canonicalize(sorted[i].1))
  {
    hide SortByKey;
  }

  lemma MeaningKeys(entries: seq<(string, Value)>)
    ensures Meaning(Entries(entries)).Object? && Meaning(Entries(entries)).fields.Keys == KeySet(entries)
  {
  }

  lemma {:induction false} CanonicalObjectIsOrdered(entries: seq<(string, Value)>)
    requires WellFormed(Entries(entries))
    ensures Canonicalize(Entries(entries)) == Ordered(Meaning(Entries(entries)))
    decreases Entries(entries), 1
  {
    assert Distinct(Keys(entries));
    hide SortByKey, Sorted, WellFormed, Canonicalize, Meaning, Distinct, KeySet;
    CanonicalEntries(entries);
    MeaningKeys(entries);
    var fields := Meaning(Entries(entries)).fields;
    var (sorted, written) := (SortByKey(entries), Canonicalize(Entries(entries)).entries);
    SortedKeysAre(entries);
    OrderedEntries(fields);
    var ordered := Ordered(Object(fields)).entries;
    assert |Keys(sorted)| == |Keys(ordered)|;
    forall i | 0 <= i < |sorted| ensures written[i] == ordered[i] {
      CanonicalEntriesAre(entries, fields, i);
      assert Keys(sorted)[i] == Keys(ordered)[i];
    }
    assert written == ordered;
    assert Ordered(Object(fields)) == Entries(ordered);
  }

  // --- What the digest tells ---

  lemma CanonicalizeIsIdempotent(v: Value)
    requires WellFormed(v)
    ensures WellFormed(Canonicalize(v)) && Canonicalize(Canonicalize(v)) == Canonicalize(v)
  {
    CanonicalIsOrdered(v);
    MeaningOfOrdered(Meaning(v));
    CanonicalIsOrdered(Canonicalize(v));
  }

  /** Two values have one canonical form exactly when they are equal but for the order of keys. */
  lemma CanonicalTellsMeaning(x: Value, y: Value)
    requires WellFormed(x) && WellFormed(y)
    ensures Canonicalize(x) == Canonicalize(y) <==> Meaning(x) == Meaning(y)
  {
    CanonicalIsOrdered(x);
    CanonicalIsOrdered(y);
    MeaningOfOrdered(Meaning(x));
    MeaningOfOrdered(Meaning(y));
  }
}
