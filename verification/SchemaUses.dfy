/** When a change is reported at a use: a place in the two schemas, reached through properties, items
    and branches, whose schema may refer to a definition elsewhere. */
module SchemaUses {
  import opened Json
  import opened Changes
  import opened Pointer
  import opened SchemaDiff
  import D = SchemaDuality

  /** The schema one step below `o`. */
  function Child(o: map<string, Json>, step: Step): Option<Json> {
    match step
    case Property(name) => Get(Properties(o), name)
    case Key(key) => if key == "items" then Get(o, key) else None
    case Branch(key, i) =>
      if key in KEYWORDS.branches && Branches(o, key).Some? && i < |Branches(o, key).value|
      then Some(Branches(o, key).value[i]) else None
  }

  /** Both schemas have a child there, and the walk would compare the two. */
  predicate Paired(oa: map<string, Json>, ob: map<string, Json>, step: Step) {
    && Child(oa, step).Some? && Child(ob, step).Some?
    && (step.Branch? ==> |Branches(oa, step.keyword).value| == |Branches(ob, step.keyword).value|)
  }

  function Ra(ctx: Ctx, a: Json, depth: nat): Json {
    Resolved(ctx.rootA, a, HopsAt(depth))
  }

  function Rb(ctx: Ctx, b: Json, depth: nat): Json {
    Resolved(ctx.rootB, b, HopsAt(depth))
  }

  /** `steps` lead to a use, through references followed as the walk follows them, no deeper than the
      walk goes. */
  predicate IsUse(ctx: Ctx, a: Json, b: Json, steps: seq<Step>, depth: nat)
    decreases |steps|
  {
    && depth <= MAX_DEPTH
    && (steps == []
        || (var (ra, rb) := (Ra(ctx, a, depth), Rb(ctx, b, depth));
            && ra.Object? && rb.Object? && Paired(ra.fields, rb.fields, steps[0])
            && IsUse(ctx, Child(ra.fields, steps[0]).value, Child(rb.fields, steps[0]).value, steps[1..], depth + 1)))
  }

  function UseAt(ctx: Ctx, a: Json, b: Json, steps: seq<Step>, depth: nat): (Json, Json)
    requires IsUse(ctx, a, b, steps, depth)
    decreases |steps|
  {
    if steps == [] then (a, b)
    else
      var (ra, rb) := (Ra(ctx, a, depth), Rb(ctx, b, depth));
      UseAt(ctx, Child(ra.fields, steps[0]).value, Child(rb.fields, steps[0]).value, steps[1..], depth + 1)
  }

  /** At every schema above the use, what the references lead to reads differently on the two sides. */
  predicate TextsDifferAbove(ctx: Ctx, a: Json, b: Json, steps: seq<Step>, depth: nat)
    requires IsUse(ctx, a, b, steps, depth)
    decreases |steps|
  {
    steps == []
    || (var (ra, rb) := (Ra(ctx, a, depth), Rb(ctx, b, depth));
        && ra != rb
        && TextsDifferAbove(ctx, Child(ra.fields, steps[0]).value, Child(rb.fields, steps[0]).value, steps[1..],
                            depth + 1))
  }

  /** What the walk finds at the use itself, with as many references followed as it follows there:
      `HopsAt` the depth of the use. */
  ghost function UseChanges(ctx: Ctx, a: Json, b: Json, path: seq<Step>, steps: seq<Step>, depth: nat): seq<Change>
    requires IsUse(ctx, a, b, steps, depth)
  {
    var (x, y) := UseAt(ctx, a, b, steps, depth);
    WalkChanges(ctx, x, y, path + steps, depth + |steps|)
  }

  ghost function ChildChanges(ctx: Ctx, oa: map<string, Json>, ob: map<string, Json>, path: seq<Step>, step: Step,
                              depth: nat): seq<Change>
    requires Paired(oa, ob, step)
  {
    WalkChanges(ctx, Child(oa, step).value, Child(ob, step).value, path + [step], depth + 1)
  }

  lemma CountIsIn(list: seq<Change>, c: Change)
    ensures multiset(list)[c] > 0 <==> c in list
  {
  }

  /** Of the changes below a child, a node reports those the walk of that child finds. */
  lemma PropertyReports(ctx: Ctx, oa: map<string, Json>, ob: map<string, Json>, path: seq<Step>, step: Step, depth: nat,
                        c: Change)
    requires depth <= MAX_DEPTH && step.Property? && Paired(oa, ob, step) && path + [step] <= c.path
    requires |c.path| > |path| + 1 || c in ChildChanges(ctx, oa, ob, path, step, depth)
    ensures c in NodeChanges(ctx, KEYWORDS, oa, ob, path, depth) <==> c in ChildChanges(ctx, oa, ob, path, step, depth)
  {
    hide NodeChanges, WalkChanges, D.NameChanges;
    var n := step.name;
    var here := path + [step];
    assert D.AtName(c, path, n);
    D.NameAlone(ctx, oa, ob, path, depth, n, c);
    D.SharedName(ctx, oa, ob, path, depth, n);
    CountIsIn(NodeChanges(ctx, KEYWORDS, oa, ob, path, depth), c);
    CountIsIn(RequiredChanges(ctx, oa, ob, here, n), c);
    CountIsIn(ChildChanges(ctx, oa, ob, path, step, depth), c);
    assert c in RequiredChanges(ctx, oa, ob, here, n) ==> c.path == here;
  }

  lemma ItemsReport(ctx: Ctx, oa: map<string, Json>, ob: map<string, Json>, path: seq<Step>, step: Step, depth: nat,
                    c: Change)
    requires depth <= MAX_DEPTH && step.Key? && Paired(oa, ob, step) && path + [step] <= c.path
    ensures c in NodeChanges(ctx, KEYWORDS, oa, ob, path, depth) <==> c in ChildChanges(ctx, oa, ob, path, step, depth)
  {
    hide NodeChanges, WalkChanges;
    assert step == Key("items");
    assert D.AtItems(c, path);
    D.ItemsAlone(ctx, oa, ob, path, depth, c);
    CountIsIn(NodeChanges(ctx, KEYWORDS, oa, ob, path, depth), c);
    CountIsIn(ItemsChanges(ctx, oa, ob, path, depth), c);
  }

  lemma BranchReports(ctx: Ctx, oa: map<string, Json>, ob: map<string, Json>, path: seq<Step>, step: Step, depth: nat,
                      c: Change)
    requires depth <= MAX_DEPTH && step.Branch? && Paired(oa, ob, step) && path + [step] <= c.path
    ensures c in NodeChanges(ctx, KEYWORDS, oa, ob, path, depth) <==> c in ChildChanges(ctx, oa, ob, path, step, depth)
  {
    hide NodeChanges, WalkChanges, BranchChanges;
    var (key, i) := (step.keyword, step.index);
    var (la, lb) := (Branches(oa, key).value, Branches(ob, key).value);
    assert c.path[|path|] == (path + [step])[|path|];
    assert D.AtBranchKey(c, path, key);
    D.BranchKeyAlone(ctx, oa, ob, path, depth, key, c);
    D.BranchAt(ctx, la, lb, key, path, depth, 0, i, c);
    CountIsIn(NodeChanges(ctx, KEYWORDS, oa, ob, path, depth), c);
    CountIsIn(BranchChanges(ctx, la, lb, key, path, depth, 0), c);
    CountIsIn(ChildChanges(ctx, oa, ob, path, step, depth), c);
  }

  lemma ChildReports(ctx: Ctx, oa: map<string, Json>, ob: map<string, Json>, path: seq<Step>, step: Step, depth: nat,
                     c: Change)
    requires depth <= MAX_DEPTH && Paired(oa, ob, step) && path + [step] <= c.path
    requires |c.path| > |path| + 1 || c in ChildChanges(ctx, oa, ob, path, step, depth)
    ensures c in NodeChanges(ctx, KEYWORDS, oa, ob, path, depth) <==> c in ChildChanges(ctx, oa, ob, path, step, depth)
  {
    hide NodeChanges, ChildChanges, Paired;
    match step
    case Property(_) => PropertyReports(ctx, oa, ob, path, step, depth, c);
    case Key(_) => ItemsReport(ctx, oa, ob, path, step, depth, c);
    case Branch(_, _) => BranchReports(ctx, oa, ob, path, step, depth, c);
  }

  lemma UnequalObjectsWalk(ctx: Ctx, a: Json, b: Json, path: seq<Step>, depth: nat)
    requires depth <= MAX_DEPTH && Ra(ctx, a, depth).Object? && Rb(ctx, b, depth).Object?
    ensures WalkChanges(ctx, a, b, path, depth)
         == if Ra(ctx, a, depth) == Rb(ctx, b, depth) then []
            else NodeChanges(ctx, KEYWORDS, Ra(ctx, a, depth).fields, Rb(ctx, b, depth).fields, path, depth)
  {
    hide NodeChanges;
  }

  /** One step closer to the use. */
  lemma UseBelow(ctx: Ctx, a: Json, b: Json, path: seq<Step>, steps: seq<Step>, depth: nat) returns (x: Json, y: Json)
    requires IsUse(ctx, a, b, steps, depth) && steps != []
    ensures var (ra, rb) := (Ra(ctx, a, depth), Rb(ctx, b, depth));
            && depth <= MAX_DEPTH && ra.Object? && rb.Object? && Paired(ra.fields, rb.fields, steps[0])
            && x == Child(ra.fields, steps[0]).value && y == Child(rb.fields, steps[0]).value
            && IsUse(ctx, x, y, steps[1..], depth + 1)
            && (TextsDifferAbove(ctx, a, b, steps, depth) <==>
                  ra != rb && TextsDifferAbove(ctx, x, y, steps[1..], depth + 1))
            && UseChanges(ctx, a, b, path, steps, depth) == UseChanges(ctx, x, y, path + [steps[0]], steps[1..],
                                                                       depth + 1)
  {
    hide WalkChanges, Child, Resolved;
    x, y := Child(Ra(ctx, a, depth).fields, steps[0]).value, Child(Rb(ctx, b, depth).fields, steps[0]).value;
    assert path + [steps[0]] + steps[1..] == path + steps;
  }

  lemma UsePlaces(ctx: Ctx, a: Json, b: Json, path: seq<Step>, steps: seq<Step>, depth: nat, c: Change)
    requires IsUse(ctx, a, b, steps, depth) && c in UseChanges(ctx, a, b, path, steps, depth)
    ensures path + steps <= c.path
  {
    hide WalkChanges;
    var (x, y) := UseAt(ctx, a, b, steps, depth);
    D.WalkPlaces(ctx, x, y, path + steps, depth + |steps|);
  }

  lemma UseHere(ctx: Ctx, a: Json, b: Json, path: seq<Step>, depth: nat)
    requires IsUse(ctx, a, b, [], depth)
    ensures UseChanges(ctx, a, b, path, [], depth) == WalkChanges(ctx, a, b, path, depth)
    ensures TextsDifferAbove(ctx, a, b, [], depth)
  {
    hide WalkChanges;
    assert path + [] == path;
  }

  /** At the depth where no reference is followed any more, a use that reads the same on both sides shows
      no change, whatever became of what it refers to. */
  lemma NoHopsAtTheLimit(ctx: Ctx, a: Json, b: Json, path: seq<Step>, steps: seq<Step>, depth: nat)
    requires IsUse(ctx, a, b, steps, depth) && depth + |steps| >= MAX_DEPTH
    requires UseAt(ctx, a, b, steps, depth).0 == UseAt(ctx, a, b, steps, depth).1
    ensures UseChanges(ctx, a, b, path, steps, depth) == []
  {
    hide IsUse, UseAt;
    var (x, y) := UseAt(ctx, a, b, steps, depth);
    var here := depth + |steps|;
    assert here <= MAX_DEPTH ==> Resolved(ctx.rootA, x, HopsAt(here)) == x && Resolved(ctx.rootB, y, HopsAt(here)) == y;
    hide NodeChanges;
  }

  /** A change the walk finds at a use is reported if and only if the resolved texts differ at every
      schema above it. */
  lemma {:induction false} UseIsReported(ctx: Ctx, a: Json, b: Json, path: seq<Step>, steps: seq<Step>, depth: nat,
                                         c: Change)
    requires IsUse(ctx, a, b, steps, depth)
    requires c in UseChanges(ctx, a, b, path, steps, depth)
    ensures c in WalkChanges(ctx, a, b, path, depth) <==> TextsDifferAbove(ctx, a, b, steps, depth)
    decreases |steps|
  {
    hide WalkChanges, NodeChanges, Paired, Child, IsUse, UseChanges, TextsDifferAbove, Ra, Rb;
    if steps == [] {
      UseHere(ctx, a, b, path, depth);
    } else {
      var x, y := UseBelow(ctx, a, b, path, steps, depth);
      var here := path + [steps[0]];
      UsePlaces(ctx, a, b, path, steps, depth, c);
      assert here <= path + steps;
      UseIsReported(ctx, x, y, here, steps[1..], depth + 1, c);
      if |steps| == 1 {
        assert steps[1..] == [];
        UseHere(ctx, x, y, here, depth + 1);
      }
      ChildReports(ctx, Ra(ctx, a, depth).fields, Rb(ctx, b, depth).fields, path, steps[0], depth, c);
      UnequalObjectsWalk(ctx, a, b, path, depth);
    }
  }

  /** So for a whole comparison: a change found at a use is reported exactly when no schema above it
      reads equal on both sides. */
  lemma ComparedUseIsReported(a: Json, b: Json, direction: Direction, kind: ItemKind, name: string, path: seq<Step>,
                              steps: seq<Step>, c: Change)
    requires IsUse(Ctx(a, b, direction, kind, name), a, b, steps, 0)
    requires c in UseChanges(Ctx(a, b, direction, kind, name), a, b, path, steps, 0)
    ensures c in CompareChanges(a, b, direction, kind, name, path) <==>
              TextsDifferAbove(Ctx(a, b, direction, kind, name), a, b, steps, 0)
  {
    var ctx := Ctx(a, b, direction, kind, name);
    UseIsReported(ctx, a, b, path, steps, 0, c);
    assert a == b ==> WalkChanges(ctx, a, b, path, 0) == [] by {
      hide NodeChanges;
    }
    hide WalkChanges;
  }

  /** Changes are reported at every use, as the documentation promises, if and only if no schema above
      a use with a change reads equal on both sides. */
  lemma EveryUseIsReported(a: Json, b: Json, direction: Direction, kind: ItemKind, name: string, path: seq<Step>)
    ensures var ctx := Ctx(a, b, direction, kind, name);
            (forall steps, c :: IsUse(ctx, a, b, steps, 0) && c in UseChanges(ctx, a, b, path, steps, 0) ==>
               c in CompareChanges(a, b, direction, kind, name, path)) <==>
            (forall steps :: IsUse(ctx, a, b, steps, 0) && UseChanges(ctx, a, b, path, steps, 0) != [] ==>
               TextsDifferAbove(ctx, a, b, steps, 0))
  {
    hide CompareChanges, UseChanges, IsUse, TextsDifferAbove;
    var ctx := Ctx(a, b, direction, kind, name);
    if forall steps, c :: IsUse(ctx, a, b, steps, 0) && c in UseChanges(ctx, a, b, path, steps, 0) ==>
         c in CompareChanges(a, b, direction, kind, name, path)
    {
      forall steps | IsUse(ctx, a, b, steps, 0) && UseChanges(ctx, a, b, path, steps, 0) != []
        ensures TextsDifferAbove(ctx, a, b, steps, 0)
      {
        var c := UseChanges(ctx, a, b, path, steps, 0)[0];
        assert c in UseChanges(ctx, a, b, path, steps, 0);
        ComparedUseIsReported(a, b, direction, kind, name, path, steps, c);
      }
    } else {
      var steps, c :| IsUse(ctx, a, b, steps, 0) && c in UseChanges(ctx, a, b, path, steps, 0)
        && c !in CompareChanges(a, b, direction, kind, name, path);
      ComparedUseIsReported(a, b, direction, kind, name, path, steps, c);
      assert UseChanges(ctx, a, b, path, steps, 0) != [];
    }
  }
}
