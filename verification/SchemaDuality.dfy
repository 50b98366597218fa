/** Comparing inputs one way and outputs the other way reports the same changes. */
module SchemaDuality {
  import opened Json
  import opened Changes
  import opened Pointer
  import opened SchemaDiff

  /** The comparison of the same schemas the other way round, in the other direction. */
  function Dual(ctx: Ctx): Ctx {
    Ctx(ctx.rootB, ctx.rootA, if ctx.direction.Input? then Output else Input, ctx.kind, ctx.name)
  }

  // --- Changes of one node, by the property they are about ---

  ghost function Sum(names: set<string>, f: string -> multiset<Change>): multiset<Change>
    decreases names
  {
    if names == {} then multiset{}
    else f(Least(names)) + Sum(names - {Least(names)}, f)
  }

  lemma {:induction false} SumCongruence(names: set<string>, f: string -> multiset<Change>,
                                         g: string -> multiset<Change>)
    requires forall n :: n in names ==> f(n) == g(n)
    ensures Sum(names, f) == Sum(names, g)
    decreases names
  {
    if names != {} {
      SumCongruence(names - {Least(names)}, f, g);
    }
  }

  lemma {:induction false} SumPlus(names: set<string>, f: string -> multiset<Change>, g: string -> multiset<Change>,
                                   h: string -> multiset<Change>)
    requires forall n :: n in names ==> f(n) + g(n) == h(n)
    ensures Sum(names, f) + Sum(names, g) == Sum(names, h)
    decreases names
  {
    if names != {} {
      SumPlus(names - {Least(names)}, f, g, h);
      var m := Least(names);
      assert f(m) + g(m) == h(m);
    }
  }

  lemma {:induction false} SumOverMore(few: set<string>, many: set<string>, f: string -> multiset<Change>)
    requires few <= many
    requires forall n :: n in many - few ==> f(n) == multiset{}
    ensures Sum(few, f) == Sum(many, f)
    decreases many
  {
    if many != {} {
      var m := Least(many);
      if m in few {
        LeastUnique(few);
        assert IsLeast(m, few);
        assert Least(few) == m;
        SumOverMore(few - {m}, many - {m}, f);
      } else {
        assert m in many - few;
        SumOverMore(few, many - {m}, f);
      }
    }
  }

  /** What a node reports for property `n`, and below it. */
  ghost function NameChanges(ctx: Ctx, oa: map<string, Json>, ob: map<string, Json>, path: seq<Step>, depth: nat,
                             n: string): multiset<Change>
    requires depth <= MAX_DEPTH
  {
    (if n in Properties(oa) then multiset(PropertyChange(ctx, oa, ob, path, depth, n)) else multiset{})
    + (if n in Properties(ob) then multiset(AddedChange(ctx, oa, ob, path, n)) else multiset{})
  }

  lemma {:induction false} PropertySum(ctx: Ctx, oa: map<string, Json>, ob: map<string, Json>, path: seq<Step>,
                                       depth: nat, names: set<string>, f: string -> multiset<Change>)
    requires depth <= MAX_DEPTH && names <= Properties(oa).Keys
    requires forall n :: n in names ==> f(n) == multiset(PropertyChange(ctx, oa, ob, path, depth, n))
    ensures multiset(PropertyChanges(ctx, oa, ob, path, depth, Sorted(names))) == Sum(names, f)
    decreases names
  {
    hide PropertyChange;
    if names != {} {
      var m := Least(names);
      PropertySum(ctx, oa, ob, path, depth, names - {m}, f);
      assert Sorted(names)[1..] == Sorted(names - {m});
    }
  }

  lemma {:induction false} AddedSum(ctx: Ctx, oa: map<string, Json>, ob: map<string, Json>, path: seq<Step>,
                                    names: set<string>, f: string -> multiset<Change>)
    requires forall n :: n in names ==> f(n) == multiset(AddedChange(ctx, oa, ob, path, n))
    ensures multiset(AddedChanges(ctx, oa, ob, path, Sorted(names))) == Sum(names, f)
    decreases names
  {
    hide AddedChange;
    if names != {} {
      var m := Least(names);
      AddedSum(ctx, oa, ob, path, names - {m}, f);
      assert Sorted(names)[1..] == Sorted(names - {m});
    }
  }

  /** The changes about properties, gathered name by name. */
  lemma NamesSum(ctx: Ctx, oa: map<string, Json>, ob: map<string, Json>, path: seq<Step>, depth: nat)
    requires depth <= MAX_DEPTH
    ensures multiset(PropertyChanges(ctx, oa, ob, path, depth, Sorted(Properties(oa).Keys)))
            + multiset(AddedChanges(ctx, oa, ob, path, Sorted(Properties(ob).Keys)))
         == Sum(Properties(oa).Keys + Properties(ob).Keys, n => NameChanges(ctx, oa, ob, path, depth, n))
  {
    hide PropertyChange, PropertyChanges, AddedChange, AddedChanges, Sorted, Properties;
    var (pa, pb) := (Properties(oa).Keys, Properties(ob).Keys);
    var f := n => if n in Properties(oa) then multiset(PropertyChange(ctx, oa, ob, path, depth, n)) else multiset{};
    var g := n => if n in Properties(ob) then multiset(AddedChange(ctx, oa, ob, path, n)) else multiset{};
    var h := n => NameChanges(ctx, oa, ob, path, depth, n);
    PropertySum(ctx, oa, ob, path, depth, pa, f);
    AddedSum(ctx, oa, ob, path, pb, g);
    SumOverMore(pa, pa + pb, f);
    SumOverMore(pb, pa + pb, g);
    SumPlus(pa + pb, f, g, h);
  }

  // --- Keywords report the same both ways ---

  lemma {:induction false} MetadataIsDual(ctx: Ctx, oa: map<string, Json>, ob: map<string, Json>, path: seq<Step>,
                                          keys: seq<string>)
    ensures MetadataChanges(ctx, oa, ob, path, keys) == MetadataChanges(Dual(ctx), ob, oa, path, keys)
  {
    if keys != [] {
      MetadataIsDual(ctx, oa, ob, path, keys[1..]);
    }
  }

  lemma {:induction false} BoundsAreDual(ctx: Ctx, oa: map<string, Json>, ob: map<string, Json>, path: seq<Step>,
                                         bounds: seq<(string, bool)>)
    ensures BoundChanges(ctx, oa, ob, path, bounds) == BoundChanges(Dual(ctx), ob, oa, path, bounds)
  {
    if bounds != [] {
      BoundsAreDual(ctx, oa, ob, path, bounds[1..]);
      assert BoundChange(ctx, oa, ob, path, bounds[0]) == BoundChange(Dual(ctx), ob, oa, path, bounds[0]);
    }
  }

  lemma {:induction false} FixedAreDual(ctx: Ctx, oa: map<string, Json>, ob: map<string, Json>, path: seq<Step>,
                                        keys: seq<string>)
    ensures FixedChanges(ctx, oa, ob, path, keys) == FixedChanges(Dual(ctx), ob, oa, path, keys)
  {
    if keys != [] {
      FixedAreDual(ctx, oa, ob, path, keys[1..]);
      assert FixedChange(ctx, oa, ob, path, keys[0]) == FixedChange(Dual(ctx), ob, oa, path, keys[0]);
    }
  }

  lemma {:induction false} UnknownAreDual(ctx: Ctx, oa: map<string, Json>, ob: map<string, Json>, path: seq<Step>,
                                          handled: set<string>, keys: seq<string>)
    ensures UnknownChanges(ctx, oa, ob, path, handled, keys) == UnknownChanges(Dual(ctx), ob, oa, path, handled, keys)
  {
    if keys != [] {
      UnknownAreDual(ctx, oa, ob, path, handled, keys[1..]);
    }
  }

  lemma TypesAreDual(ctx: Ctx, oa: map<string, Json>, ob: map<string, Json>, path: seq<Step>)
    ensures TypeChanges(ctx, oa, ob, path) == TypeChanges(Dual(ctx), ob, oa, path)
  {
  }

  lemma EnumsAreDual(ctx: Ctx, oa: map<string, Json>, ob: map<string, Json>, path: seq<Step>)
    ensures multiset(EnumChanges(ctx, oa, ob, path)) == multiset(EnumChanges(Dual(ctx), ob, oa, path))
  {
  }

  lemma OneOfsAreDual(ctx: Ctx, oa: map<string, Json>, ob: map<string, Json>, path: seq<Step>, here: seq<Step>,
                      name: string)
    ensures ConstChanges(ctx, oa, ob, path) == ConstChanges(Dual(ctx), ob, oa, path)
    ensures AdditionalChanges(ctx, oa, ob, path) == AdditionalChanges(Dual(ctx), ob, oa, path)
    ensures RequiredChanges(ctx, oa, ob, here, name) == RequiredChanges(Dual(ctx), ob, oa, here, name)
  {
  }

  lemma KeywordsAreDual(ctx: Ctx, keys: Keywords, oa: map<string, Json>, ob: map<string, Json>, path: seq<Step>)
    ensures multiset(KeywordChanges(ctx, keys, oa, ob, path)) == multiset(KeywordChanges(Dual(ctx), keys, ob, oa, path))
  {
    hide MetadataChanges, TypeChanges, EnumChanges, ConstChanges, BoundChanges, FixedChanges, AdditionalChanges;
    MetadataIsDual(ctx, oa, ob, path, keys.metadata);
    TypesAreDual(ctx, oa, ob, path);
    EnumsAreDual(ctx, oa, ob, path);
    OneOfsAreDual(ctx, oa, ob, path, path, "");
    BoundsAreDual(ctx, oa, ob, path, keys.bounds);
    FixedAreDual(ctx, oa, ob, path, keys.fixedKeys);
  }

  // --- The exact condition ---

  /** Comparing inputs: a property that went was not forbidden, and one that came is required. */
  ghost predicate Mirrored(ctx: Ctx, a: Json, b: Json, depth: nat)
    decreases Room(depth), 2
  {
    var ra := Resolved(ctx.rootA, a, HopsAt(depth));
    var rb := Resolved(ctx.rootB, b, HopsAt(depth));
    depth <= MAX_DEPTH && ra != rb && ra.Object? && rb.Object? ==> NodeMirrored(ctx, ra.fields, rb.fields, depth)
  }

  ghost predicate NodeMirrored(ctx: Ctx, oa: map<string, Json>, ob: map<string, Json>, depth: nat)
    requires depth <= MAX_DEPTH
    decreases Room(depth), 1
  {
    && (forall n :: n in Properties(oa) || n in Properties(ob) ==> NameMirrored(ctx, oa, ob, depth, n))
    && ("items" in oa && "items" in ob ==> Mirrored(ctx, oa["items"], ob["items"], depth + 1))
    && (forall key :: key in KEYWORDS.branches ==> BranchesMirrored(ctx, oa, ob, depth, key))
  }

  ghost predicate NameMirrored(ctx: Ctx, oa: map<string, Json>, ob: map<string, Json>, depth: nat, n: string)
    requires depth <= MAX_DEPTH
    decreases Room(depth), 0
  {
    && (n in Properties(oa) && n !in Properties(ob) ==> !Forbids(ob))
    && (n in Properties(ob) && n !in Properties(oa) ==> Requires(ob, n))
    && (n in Properties(oa) && n in Properties(ob) ==> Mirrored(ctx, Properties(oa)[n], Properties(ob)[n], depth + 1))
  }

  ghost predicate BranchesMirrored(ctx: Ctx, oa: map<string, Json>, ob: map<string, Json>, depth: nat, key: string)
    requires depth <= MAX_DEPTH
    decreases Room(depth), 0
  {
    var (la, lb) := (Branches(oa, key), Branches(ob, key));
    la.Some? && lb.Some? && |la.value| == |lb.value| ==>
      forall i :: 0 <= i < |la.value| ==> Mirrored(ctx, la.value[i], lb.value[i], depth + 1)
  }

  // --- Where the changes of each part are ---

  ghost predicate Under(list: seq<Change>, prefix: seq<Step>) {
    forall c :: c in list ==> prefix <= c.path
  }

  /** Each change is at one key of the node itself, one of `keys`. */
  ghost predicate AtKeys(list: seq<Change>, path: seq<Step>, keys: set<string>) {
    forall c :: c in list ==> |c.path| == |path| + 1 && c.path[|path|].Key? && c.path[|path|].key in keys
  }

  lemma {:induction false} KeywordPlaces(ctx: Ctx, keys: Keywords, oa: map<string, Json>, ob: map<string, Json>,
                                         path: seq<Step>)
    ensures AtKeys(KeywordChanges(ctx, keys, oa, ob, path), path, keys.Simple())
    ensures Under(KeywordChanges(ctx, keys, oa, ob, path), path)
  {
    hide MetadataChanges, TypesOf, TypeSeverity, SetOf, Get, Forbids, BoundChanges, FixedChanges;
    MetadataPlaces(ctx, oa, ob, path, keys.metadata);
    BoundPlaces(ctx, oa, ob, path, keys.bounds);
    FixedPlaces(ctx, oa, ob, path, keys.fixedKeys);
  }

  lemma {:induction false} MetadataPlaces(ctx: Ctx, oa: map<string, Json>, ob: map<string, Json>, path: seq<Step>,
                                          keys: seq<string>)
    ensures AtKeys(MetadataChanges(ctx, oa, ob, path, keys), path, Elements(keys))
    ensures Under(MetadataChanges(ctx, oa, ob, path, keys), path)
  {
    if keys != [] {
      MetadataPlaces(ctx, oa, ob, path, keys[1..]);
    }
  }

  lemma {:induction false} BoundPlaces(ctx: Ctx, oa: map<string, Json>, ob: map<string, Json>, path: seq<Step>,
                                       bounds: seq<(string, bool)>)
    ensures AtKeys(BoundChanges(ctx, oa, ob, path, bounds), path, BoundNames(bounds))
    ensures Under(BoundChanges(ctx, oa, ob, path, bounds), path)
  {
    if bounds != [] {
      BoundPlaces(ctx, oa, ob, path, bounds[1..]);
    }
  }

  lemma {:induction false} FixedPlaces(ctx: Ctx, oa: map<string, Json>, ob: map<string, Json>, path: seq<Step>,
                                       keys: seq<string>)
    ensures AtKeys(FixedChanges(ctx, oa, ob, path, keys), path, Elements(keys))
    ensures Under(FixedChanges(ctx, oa, ob, path, keys), path)
  {
    if keys != [] {
      FixedPlaces(ctx, oa, ob, path, keys[1..]);
    }
  }

  lemma {:induction false} UnknownPlaces(ctx: Ctx, oa: map<string, Json>, ob: map<string, Json>, path: seq<Step>,
                                         handled: set<string>, keys: seq<string>)
    ensures AtKeys(UnknownChanges(ctx, oa, ob, path, handled, keys), path, Elements(keys) - handled)
    ensures Under(UnknownChanges(ctx, oa, ob, path, handled, keys), path)
  {
    if keys != [] {
      UnknownPlaces(ctx, oa, ob, path, handled, keys[1..]);
    }
  }

  lemma {:induction false} WalkPlaces(ctx: Ctx, a: Json, b: Json, path: seq<Step>, depth: nat)
    ensures Under(WalkChanges(ctx, a, b, path, depth), path)
    decreases Room(depth), 3
  {
    hide NodeChanges;
    if depth <= MAX_DEPTH {
      var ra := Resolved(ctx.rootA, a, HopsAt(depth));
      var rb := Resolved(ctx.rootB, b, HopsAt(depth));
      if ra != rb && ra.Object? && rb.Object? {
        NodePlaces(ctx, ra.fields, rb.fields, path, depth);
      }
    }
  }

  lemma {:induction false} NodePlaces(ctx: Ctx, oa: map<string, Json>, ob: map<string, Json>, path: seq<Step>,
                                      depth: nat)
    requires depth <= MAX_DEPTH
    ensures Under(NodeChanges(ctx, KEYWORDS, oa, ob, path, depth), path)
    decreases Room(depth), 2
  {
    hide KeywordChanges, PropertyChanges, AddedChanges, ItemsChanges, BranchKeyChanges, UnknownChanges, Sorted,
      Properties, Keywords.Handled, Keywords.Simple;
    var names := Sorted(Properties(oa).Keys);
    KeywordPlaces(ctx, KEYWORDS, oa, ob, path);
    PropertyPlaces(ctx, oa, ob, path, depth, names);
    AddedPlaces(ctx, oa, ob, path, Sorted(Properties(ob).Keys));
    ItemsPlaces(ctx, oa, ob, path, depth);
    BranchKeyPlaces(ctx, oa, ob, path, depth, KEYWORDS.branches);
    UnknownPlaces(ctx, oa, ob, path, KEYWORDS.Handled(), Sorted(oa.Keys + ob.Keys));
    UnderLonger(ItemsChanges(ctx, oa, ob, path, depth), path, Key("items"));
  }

  lemma UnderLonger(list: seq<Change>, path: seq<Step>, step: Step)
    requires Under(list, path + [step])
    ensures Under(list, path)
  {
    forall c | c in list ensures path <= c.path {
      assert path <= path + [step] <= c.path;
    }
  }

  lemma {:induction false} PropertyPlaces(ctx: Ctx, oa: map<string, Json>, ob: map<string, Json>, path: seq<Step>,
                                          depth: nat, names: seq<string>)
    requires depth <= MAX_DEPTH
    requires forall n :: n in names ==> n in Properties(oa)
    ensures Under(PropertyChanges(ctx, oa, ob, path, depth, names), path)
    decreases Room(depth), 1, |names|
  {
    hide PropertyChange;
    if names != [] {
      PropertyPlace(ctx, oa, ob, path, depth, names[0]);
      UnderLonger(PropertyChange(ctx, oa, ob, path, depth, names[0]), path, Property(names[0]));
      PropertyPlaces(ctx, oa, ob, path, depth, names[1..]);
    }
  }

  lemma {:induction false} PropertyPlace(ctx: Ctx, oa: map<string, Json>, ob: map<string, Json>, path: seq<Step>,
                                         depth: nat, name: string)
    requires depth <= MAX_DEPTH && name in Properties(oa)
    ensures Under(PropertyChange(ctx, oa, ob, path, depth, name), path + [Property(name)])
    decreases Room(depth), 0
  {
    hide WalkChanges;
    if name in Properties(ob) {
      WalkPlaces(ctx, Properties(oa)[name], Properties(ob)[name], path + [Property(name)], depth + 1);
    }
  }

  lemma {:induction false} AddedPlaces(ctx: Ctx, oa: map<string, Json>, ob: map<string, Json>, path: seq<Step>,
                                       names: seq<string>)
    ensures Under(AddedChanges(ctx, oa, ob, path, names), path)
  {
    if names != [] {
      AddedPlaces(ctx, oa, ob, path, names[1..]);
    }
  }

  lemma {:induction false} ItemsPlaces(ctx: Ctx, oa: map<string, Json>, ob: map<string, Json>, path: seq<Step>,
                                       depth: nat)
    requires depth <= MAX_DEPTH
    ensures Under(ItemsChanges(ctx, oa, ob, path, depth), path + [Key("items")])
    decreases Room(depth), 0
  {
    hide WalkChanges;
    if "items" in oa && "items" in ob {
      WalkPlaces(ctx, oa["items"], ob["items"], path + [Key("items")], depth + 1);
    }
  }

  lemma {:induction false} BranchKeyPlaces(ctx: Ctx, oa: map<string, Json>, ob: map<string, Json>, path: seq<Step>,
                                           depth: nat, keys: seq<string>)
    requires depth <= MAX_DEPTH
    ensures Under(BranchKeyChanges(ctx, oa, ob, path, depth, keys), path)
    decreases Room(depth), 1, |keys|
  {
    hide BranchKeyChange;
    if keys != [] {
      BranchKeyPlace(ctx, oa, ob, path, depth, keys[0]);
      BranchKeyPlaces(ctx, oa, ob, path, depth, keys[1..]);
    }
  }

  /** A change under a branch keyword is at the keyword, or under one of its branches. */
  ghost predicate InBranches(list: seq<Change>, path: seq<Step>, key: string, from: nat) {
    forall c :: c in list ==>
      |c.path| > |path| && (c.path[|path|] == Key(key)
        || (c.path[|path|].Branch? && c.path[|path|].keyword == key && c.path[|path|].index >= from))
  }

  lemma {:induction false} BranchKeyPlace(ctx: Ctx, oa: map<string, Json>, ob: map<string, Json>, path: seq<Step>,
                                          depth: nat, key: string)
    requires depth <= MAX_DEPTH
    ensures Under(BranchKeyChange(ctx, oa, ob, path, depth, key), path)
    ensures InBranches(BranchKeyChange(ctx, oa, ob, path, depth, key), path, key, 0)
    decreases Room(depth), 0, 1
  {
    hide BranchChanges;
    var (la, lb) := (Branches(oa, key), Branches(ob, key));
    if la.Some? && lb.Some? && |la.value| == |lb.value| {
      BranchPlaces(ctx, la.value, lb.value, key, path, depth, 0);
    }
  }

  lemma {:induction false} BranchPlaces(ctx: Ctx, la: seq<Json>, lb: seq<Json>, key: string, path: seq<Step>,
                                        depth: nat, from: nat)
    requires depth <= MAX_DEPTH && |la| == |lb| && from <= |la|
    ensures Under(BranchChanges(ctx, la, lb, key, path, depth, from), path)
    ensures InBranches(BranchChanges(ctx, la, lb, key, path, depth, from), path, key, from)
    ensures forall c :: c in BranchChanges(ctx, la, lb, key, path, depth, from) ==> c.path[|path|].Branch?
    decreases Room(depth), 0, 0, |la| - from
  {
    hide WalkChanges;
    if from < |la| {
      var here := path + [Branch(key, from)];
      var first := WalkChanges(ctx, la[from], lb[from], here, depth + 1);
      WalkPlaces(ctx, la[from], lb[from], here, depth + 1);
      forall c | c in first ensures path <= c.path && |c.path| > |path| && c.path[|path|] == Branch(key, from) {
        assert here <= c.path;
      }
      BranchPlaces(ctx, la, lb, key, path, depth, from + 1);
    }
  }

  // --- Which part of a node a change comes from ---

  /** A keyword of `items` or of a list of schemas. */
  predicate HoldsSchemas(k: string) {
    |k| == 5 && k[0] in {'i', 'a', 'o'}
  }

  lemma NotMetadata(k: string)
    requires HoldsSchemas(k)
    ensures k !in KEYWORDS.metadata
  {
    var m := KEYWORDS.metadata;
    assert |m| == 10 && m[0][0] == 't' && m[1][0] == m[2][0] == m[4][0] == 'd' && m[3][0] == 'e';
    assert m[5][0] == m[6][0] == m[7][0] == '$' && m[8][0] == 'r' && m[9][0] == 'w';
    assert forall i :: 0 <= i < |m| ==> m[i][0] !in {'i', 'a', 'o'};
  }

  lemma NotBound(k: string)
    requires HoldsSchemas(k)
    ensures forall b :: b in KEYWORDS.bounds ==> b.0 != k
  {
    var m := KEYWORDS.bounds;
    assert |m| == 10 && m[1].0[0] == m[6].0[0] == 'e' && m[0].0[0] == m[2].0[0] == m[3].0[0] == m[4].0[0] == 'm';
    assert m[5].0[0] == m[7].0[0] == m[8].0[0] == m[9].0[0] == 'm';
    assert forall i :: 0 <= i < |m| ==> m[i].0[0] !in {'i', 'a', 'o'};
  }

  lemma NotFixed(k: string)
    requires HoldsSchemas(k)
    ensures k !in KEYWORDS.fixedKeys
  {
    var m := KEYWORDS.fixedKeys;
    assert |m| == 4 && m[0][0] == 'p' && m[1][0] == 'f' && m[2][0] == 'm' && m[3][0] == 'u';
    assert forall i :: 0 <= i < |m| ==> m[i][0] !in {'i', 'a', 'o'};
  }

  lemma NotSimple(k: string)
    requires HoldsSchemas(k)
    ensures k !in KEYWORDS.Simple()
  {
    NotMetadata(k);
    NotBound(k);
    NotFixed(k);
    NotSimpleOf(KEYWORDS, k);
  }

  lemma NotSimpleOf(keys: Keywords, k: string)
    requires HoldsSchemas(k)
    requires k !in keys.metadata && k !in keys.fixedKeys && forall b :: b in keys.bounds ==> b.0 != k
    ensures k !in keys.Simple()
  {
    assert |"additionalProperties"| == 20;
  }

  lemma BranchKeysDiffer()
    ensures forall i, j :: 0 <= i < j < |KEYWORDS.branches| ==> KEYWORDS.branches[i] != KEYWORDS.branches[j]
    ensures forall k :: k in KEYWORDS.branches ==> HoldsSchemas(k) && k[0] != 'i'
  {
    var m := KEYWORDS.branches;
    assert |m| == 3 && |m[0]| == |m[1]| == |m[2]| == 5;
    assert m[0][1] == 'n' && m[1][0] == 'o' && m[2][1] == 'l' && m[0][0] == m[2][0] == 'a';
  }

  lemma RulesAreApart()
    ensures "items" !in KEYWORDS.Simple() && "items" in KEYWORDS.Handled()
    ensures forall k :: k in KEYWORDS.branches ==> k !in KEYWORDS.Simple() && k in KEYWORDS.Handled() && k != "items"
    ensures forall i, j :: 0 <= i < j < |KEYWORDS.branches| ==> KEYWORDS.branches[i] != KEYWORDS.branches[j]
  {
    hide Keywords.Simple;
    BranchKeysDiffer();
    HandledHas(KEYWORDS);
    NotSimple("items");
    forall k | k in KEYWORDS.branches ensures k !in KEYWORDS.Simple() {
      NotSimple(k);
    }
  }

  lemma HandledHas(keys: Keywords)
    ensures "items" in keys.Handled() && forall k :: k in keys.branches ==> k in keys.Handled()
  {
    hide Keywords.Simple;
  }

  /** `c` is at property `n`, or below it. */
  ghost predicate AtName(c: Change, path: seq<Step>, n: string) {
    path + [Property(n)] <= c.path
  }

  lemma AtOneName(c: Change, path: seq<Step>, m: string, n: string)
    requires AtName(c, path, m) && AtName(c, path, n)
    ensures m == n
  {
    assert (path + [Property(m)])[|path|] == c.path[|path|] == (path + [Property(n)])[|path|];
  }

  ghost predicate AtItems(c: Change, path: seq<Step>) {
    path + [Key("items")] <= c.path
  }

  ghost predicate AtBranchKey(c: Change, path: seq<Step>, key: string) {
    && path <= c.path && |c.path| > |path|
    && (c.path[|path|] == Key(key) || (c.path[|path|].Branch? && c.path[|path|].keyword == key))
  }

  ghost function NamesPart(ctx: Ctx, oa: map<string, Json>, ob: map<string, Json>, path: seq<Step>,
                           depth: nat): multiset<Change>
    requires depth <= MAX_DEPTH
  {
    Sum(Properties(oa).Keys + Properties(ob).Keys, n => NameChanges(ctx, oa, ob, path, depth, n))
  }

  ghost function KeywordPart(ctx: Ctx, oa: map<string, Json>, ob: map<string, Json>,
                             path: seq<Step>): multiset<Change> {
    multiset(KeywordChanges(ctx, KEYWORDS, oa, ob, path))
    + multiset(UnknownChanges(ctx, oa, ob, path, KEYWORDS.Handled(), Sorted(oa.Keys + ob.Keys)))
  }

  ghost function BranchPart(ctx: Ctx, oa: map<string, Json>, ob: map<string, Json>, path: seq<Step>, depth: nat,
                            keys: seq<string>): multiset<Change>
    requires depth <= MAX_DEPTH
  {
    multiset(BranchKeyChanges(ctx, oa, ob, path, depth, keys))
  }

  lemma NodeIsItsParts(ctx: Ctx, oa: map<string, Json>, ob: map<string, Json>, path: seq<Step>, depth: nat)
    requires depth <= MAX_DEPTH
    ensures multiset(NodeChanges(ctx, KEYWORDS, oa, ob, path, depth))
         == KeywordPart(ctx, oa, ob, path) + NamesPart(ctx, oa, ob, path, depth)
            + multiset(ItemsChanges(ctx, oa, ob, path, depth)) + BranchPart(ctx, oa, ob, path, depth, KEYWORDS.branches)
  {
    hide KeywordChanges, PropertyChanges, AddedChanges, ItemsChanges, BranchKeyChanges, UnknownChanges, Sorted,
      Properties, Keywords.Handled, NameChanges, Sum;
    NamesSum(ctx, oa, ob, path, depth);
  }

  /** A change of the keyword part is at a key that is neither `items` nor a branch keyword. */
  lemma KeywordPartPlaces(ctx: Ctx, oa: map<string, Json>, ob: map<string, Json>, path: seq<Step>, c: Change)
    requires c in KeywordPart(ctx, oa, ob, path)
    ensures path <= c.path && |c.path| > |path| && c.path[|path|].Key?
    ensures c.path[|path|].key != "items" && c.path[|path|].key !in KEYWORDS.branches
  {
    hide KeywordChanges, UnknownChanges, Keywords.Simple, Keywords.Handled, Sorted;
    RulesAreApart();
    KeywordPlaces(ctx, KEYWORDS, oa, ob, path);
    UnknownPlaces(ctx, oa, ob, path, KEYWORDS.Handled(), Sorted(oa.Keys + ob.Keys));
    var (known, unknown) := (KeywordChanges(ctx, KEYWORDS, oa, ob, path),
                             UnknownChanges(ctx, oa, ob, path, KEYWORDS.Handled(), Sorted(oa.Keys + ob.Keys)));
    assert c in known || c in unknown;
  }

  lemma NamePlaces(ctx: Ctx, oa: map<string, Json>, ob: map<string, Json>, path: seq<Step>, depth: nat, n: string,
                   c: Change)
    requires depth <= MAX_DEPTH
    requires c in NameChanges(ctx, oa, ob, path, depth, n)
    ensures AtName(c, path, n)
  {
    hide PropertyChange;
    if n in Properties(oa) {
      PropertyPlace(ctx, oa, ob, path, depth, n);
    }
    assert (n in Properties(oa) && c in PropertyChange(ctx, oa, ob, path, depth, n))
        || c in AddedChange(ctx, oa, ob, path, n);
  }

  lemma {:induction false} SumAt(names: set<string>, f: string -> multiset<Change>, n: string, c: Change)
    requires forall m :: m in names && m != n ==> c !in f(m)
    ensures Sum(names, f)[c] == if n in names then f(n)[c] else 0
    decreases names
  {
    if names != {} {
      SumAt(names - {Least(names)}, f, n, c);
    }
  }

  lemma {:induction false} SumHas(names: set<string>, f: string -> multiset<Change>, c: Change)
    requires c in Sum(names, f)
    ensures exists n :: n in names && c in f(n)
    decreases names
  {
    if names != {} {
      var m := Least(names);
      if c !in f(m) {
        SumHas(names - {m}, f, c);
      }
    }
  }

  lemma NamesPartPlaces(ctx: Ctx, oa: map<string, Json>, ob: map<string, Json>, path: seq<Step>, depth: nat, c: Change)
    requires depth <= MAX_DEPTH
    requires c in NamesPart(ctx, oa, ob, path, depth)
    ensures |c.path| > |path| && c.path[|path|].Property?
  {
    hide NameChanges, Sum;
    var f := n => NameChanges(ctx, oa, ob, path, depth, n);
    SumHas(Properties(oa).Keys + Properties(ob).Keys, f, c);
    var n :| n in Properties(oa).Keys + Properties(ob).Keys && c in f(n);
    NamePlaces(ctx, oa, ob, path, depth, n, c);
    assert c.path[|path|] == (path + [Property(n)])[|path|];
  }

  lemma NamesPartAt(ctx: Ctx, oa: map<string, Json>, ob: map<string, Json>, path: seq<Step>, depth: nat, n: string,
                    c: Change)
    requires depth <= MAX_DEPTH && AtName(c, path, n)
    ensures NamesPart(ctx, oa, ob, path, depth)[c] == NameChanges(ctx, oa, ob, path, depth, n)[c]
  {
    hide Sum;
    var names := Properties(oa).Keys + Properties(ob).Keys;
    var f := m => NameChanges(ctx, oa, ob, path, depth, m);
    forall m | m in names && m != n ensures c !in f(m) {
      if c in NameChanges(ctx, oa, ob, path, depth, m) {
        NamePlaces(ctx, oa, ob, path, depth, m, c);
        AtOneName(c, path, m, n);
      }
    }
    SumAt(names, f, n, c);
  }

  lemma {:induction false} BranchPartHas(ctx: Ctx, oa: map<string, Json>, ob: map<string, Json>, path: seq<Step>,
                                         depth: nat, keys: seq<string>, c: Change)
    requires depth <= MAX_DEPTH
    requires c in BranchPart(ctx, oa, ob, path, depth, keys)
    ensures exists key :: key in keys && AtBranchKey(c, path, key)
  {
    hide BranchKeyChange;
    if keys != [] {
      BranchKeyPlace(ctx, oa, ob, path, depth, keys[0]);
      assert c in BranchKeyChange(ctx, oa, ob, path, depth, keys[0])
          || c in BranchKeyChanges(ctx, oa, ob, path, depth, keys[1..]);
      if c in BranchKeyChange(ctx, oa, ob, path, depth, keys[0]) {
        assert AtBranchKey(c, path, keys[0]);
      } else {
        BranchPartHas(ctx, oa, ob, path, depth, keys[1..], c);
      }
    }
  }

  lemma {:induction false} BranchPartAt(ctx: Ctx, oa: map<string, Json>, ob: map<string, Json>, path: seq<Step>,
                                        depth: nat, keys: seq<string>, key: string, c: Change)
    requires depth <= MAX_DEPTH && AtBranchKey(c, path, key) && key in keys
    requires forall i, j :: 0 <= i < j < |keys| ==> keys[i] != keys[j]
    ensures BranchPart(ctx, oa, ob, path, depth, keys)[c] == multiset(BranchKeyChange(ctx, oa, ob, path, depth, key))[c]
  {
    hide BranchKeyChange;
    BranchKeyPlace(ctx, oa, ob, path, depth, keys[0]);
    var first := BranchKeyChange(ctx, oa, ob, path, depth, keys[0]);
    var others := BranchKeyChanges(ctx, oa, ob, path, depth, keys[1..]);
    assert multiset(first + others) == multiset(first) + multiset(others);
    if key == keys[0] {
      if c in others {
        BranchPartHas(ctx, oa, ob, path, depth, keys[1..], c);
      }
      assert c !in multiset(others);
    } else {
      assert c !in first;
      assert c !in multiset(first);
      BranchPartAt(ctx, oa, ob, path, depth, keys[1..], key, c);
    }
  }

  lemma {:induction false} BranchAt(ctx: Ctx, la: seq<Json>, lb: seq<Json>, key: string, path: seq<Step>, depth: nat,
                                    from: nat, i: nat, c: Change)
    requires depth <= MAX_DEPTH && |la| == |lb| && from <= i < |la|
    requires path + [Branch(key, i)] <= c.path
    ensures multiset(BranchChanges(ctx, la, lb, key, path, depth, from))[c]
         == multiset(WalkChanges(ctx, la[i], lb[i], path + [Branch(key, i)], depth + 1))[c]
    decreases i - from
  {
    hide WalkChanges;
    var here := path + [Branch(key, from)];
    var first := WalkChanges(ctx, la[from], lb[from], here, depth + 1);
    var others := BranchChanges(ctx, la, lb, key, path, depth, from + 1);
    assert multiset(first + others) == multiset(first) + multiset(others);
    assert c.path[|path|] == (path + [Branch(key, i)])[|path|];
    if from == i {
      BranchPlaces(ctx, la, lb, key, path, depth, from + 1);
      assert c !in others;
      assert c !in multiset(others);
    } else {
      WalkPlaces(ctx, la[from], lb[from], here, depth + 1);
      assert c.path[|path|] != here[|path|];
      assert c !in first;
      assert c !in multiset(first);
      BranchAt(ctx, la, lb, key, path, depth, from + 1, i, c);
    }
  }

  // --- Each part on its own ---

  lemma NameAlone(ctx: Ctx, oa: map<string, Json>, ob: map<string, Json>, path: seq<Step>, depth: nat, n: string,
                  c: Change)
    requires depth <= MAX_DEPTH && AtName(c, path, n)
    ensures multiset(NodeChanges(ctx, KEYWORDS, oa, ob, path, depth))[c] == NameChanges(ctx, oa, ob, path, depth, n)[c]
  {
    hide NodeChanges, NamesPart, KeywordPart, BranchPart, ItemsChanges, NameChanges;
    NodeIsItsParts(ctx, oa, ob, path, depth);
    NamesPartAt(ctx, oa, ob, path, depth, n, c);
    assert c.path[|path|] == (path + [Property(n)])[|path|];
    OnlyNames(ctx, oa, ob, path, depth, c);
  }

  lemma OnlyNames(ctx: Ctx, oa: map<string, Json>, ob: map<string, Json>, path: seq<Step>, depth: nat, c: Change)
    requires depth <= MAX_DEPTH && |c.path| > |path| && c.path[|path|].Property?
    ensures c !in KeywordPart(ctx, oa, ob, path)
    ensures c !in multiset(ItemsChanges(ctx, oa, ob, path, depth))
    ensures c !in BranchPart(ctx, oa, ob, path, depth, KEYWORDS.branches)
  {
    hide NodeChanges, KeywordPart, BranchPart, ItemsChanges;
    if c in KeywordPart(ctx, oa, ob, path) {
      KeywordPartPlaces(ctx, oa, ob, path, c);
    }
    if c in ItemsChanges(ctx, oa, ob, path, depth) {
      ItemsPlaces(ctx, oa, ob, path, depth);
      AtItemsStep(c, path);
    }
    if c in BranchPart(ctx, oa, ob, path, depth, KEYWORDS.branches) {
      BranchPartHas(ctx, oa, ob, path, depth, KEYWORDS.branches, c);
    }
  }

  lemma AtItemsStep(c: Change, path: seq<Step>)
    requires AtItems(c, path)
    ensures |c.path| > |path| && c.path[|path|] == Key("items")
  {
    assert c.path[|path|] == (path + [Key("items")])[|path|];
  }

  lemma ItemsAlone(ctx: Ctx, oa: map<string, Json>, ob: map<string, Json>, path: seq<Step>, depth: nat, c: Change)
    requires depth <= MAX_DEPTH && AtItems(c, path)
    ensures multiset(NodeChanges(ctx, KEYWORDS, oa, ob, path, depth))[c]
          == multiset(ItemsChanges(ctx, oa, ob, path, depth))[c]
  {
    hide NodeChanges, NamesPart, KeywordPart, BranchPart, ItemsChanges;
    NodeIsItsParts(ctx, oa, ob, path, depth);
    AtItemsStep(c, path);
    RulesAreApart();
    if c in KeywordPart(ctx, oa, ob, path) {
      KeywordPartPlaces(ctx, oa, ob, path, c);
    }
    if c in NamesPart(ctx, oa, ob, path, depth) {
      NamesPartPlaces(ctx, oa, ob, path, depth, c);
    }
    if c in BranchPart(ctx, oa, ob, path, depth, KEYWORDS.branches) {
      BranchPartHas(ctx, oa, ob, path, depth, KEYWORDS.branches, c);
    }
  }

  lemma BranchKeyAlone(ctx: Ctx, oa: map<string, Json>, ob: map<string, Json>, path: seq<Step>, depth: nat, key: string,
                       c: Change)
    requires depth <= MAX_DEPTH && AtBranchKey(c, path, key) && key in KEYWORDS.branches
    ensures multiset(NodeChanges(ctx, KEYWORDS, oa, ob, path, depth))[c]
          == multiset(BranchKeyChange(ctx, oa, ob, path, depth, key))[c]
  {
    hide NodeChanges, NamesPart, KeywordPart, BranchPart, ItemsChanges, BranchKeyChange;
    NodeIsItsParts(ctx, oa, ob, path, depth);
    RulesAreApart();
    BranchPartAt(ctx, oa, ob, path, depth, KEYWORDS.branches, key, c);
    if c in KeywordPart(ctx, oa, ob, path) {
      KeywordPartPlaces(ctx, oa, ob, path, c);
    }
    if c in NamesPart(ctx, oa, ob, path, depth) {
      NamesPartPlaces(ctx, oa, ob, path, depth, c);
    }
    if c in ItemsChanges(ctx, oa, ob, path, depth) {
      ItemsPlaces(ctx, oa, ob, path, depth);
      AtItemsStep(c, path);
    }
  }

  // --- The equivalence ---

  /** A property only one side declares: what each comparison reports of it. */
  lemma LoneNameDuality(ctx: Ctx, oa: map<string, Json>, ob: map<string, Json>, path: seq<Step>, depth: nat, n: string)
    requires depth <= MAX_DEPTH && ctx.direction.Input?
    requires n !in Properties(oa) || n !in Properties(ob)
    ensures NameChanges(ctx, oa, ob, path, depth, n) == NameChanges(Dual(ctx), ob, oa, path, depth, n)
       <==> NameMirrored(ctx, oa, ob, depth, n)
  {
    hide WalkChanges, Mirrored, RequiredChanges, Requires, Forbids, Properties;
    var (pa, pb) := (Properties(oa), Properties(ob));
    var here := path + [Property(n)];
    if n in pa {
      var (x, y) := (At(ctx, RemovedSeverity(Input, ob), here), At(ctx, Compatible, here));
      assert NameChanges(ctx, oa, ob, path, depth, n) == multiset{x};
      assert NameChanges(Dual(ctx), ob, oa, path, depth, n) == multiset{y};
      assert x == y || y !in multiset{x};
    } else if n in pb {
      var (x, y) := (At(ctx, AddedSeverity(Input, Requires(ob, n)), here), At(ctx, Breaking, here));
      assert NameChanges(ctx, oa, ob, path, depth, n) == multiset{x};
      assert NameChanges(Dual(ctx), ob, oa, path, depth, n) == multiset{y};
      assert x == y || y !in multiset{x};
    }
  }

  /** A property both sides declare. */
  lemma SharedName(ctx: Ctx, oa: map<string, Json>, ob: map<string, Json>, path: seq<Step>, depth: nat, n: string)
    requires depth <= MAX_DEPTH && n in Properties(oa) && n in Properties(ob)
    ensures NameChanges(ctx, oa, ob, path, depth, n)
         == multiset(RequiredChanges(ctx, oa, ob, path + [Property(n)], n))
            + multiset(WalkChanges(ctx, Properties(oa)[n], Properties(ob)[n], path + [Property(n)], depth + 1))
  {
    hide WalkChanges, RequiredChanges, Properties;
    MultisetOfSum(RequiredChanges(ctx, oa, ob, path + [Property(n)], n),
                  WalkChanges(ctx, Properties(oa)[n], Properties(ob)[n], path + [Property(n)], depth + 1));
  }

  lemma {:induction false} NameDuality(ctx: Ctx, oa: map<string, Json>, ob: map<string, Json>, path: seq<Step>,
                                       depth: nat, n: string)
    requires depth <= MAX_DEPTH && ctx.direction.Input?
    ensures NameChanges(ctx, oa, ob, path, depth, n) == NameChanges(Dual(ctx), ob, oa, path, depth, n)
       <==> NameMirrored(ctx, oa, ob, depth, n)
    decreases Room(depth), 0
  {
    hide WalkChanges, Mirrored, RequiredChanges, Requires, Forbids, Properties, ConstChanges, AdditionalChanges,
      NameChanges;
    var (pa, pb) := (Properties(oa), Properties(ob));
    var here := path + [Property(n)];
    if n in pa && n in pb {
      WalkDuality(ctx, pa[n], pb[n], here, depth + 1);
      OneOfsAreDual(ctx, oa, ob, path, here, n);
      SharedName(ctx, oa, ob, path, depth, n);
      SharedName(Dual(ctx), ob, oa, path, depth, n);
      Cancel(multiset(RequiredChanges(ctx, oa, ob, here, n)), multiset(WalkChanges(ctx, pa[n], pb[n], here, depth + 1)),
             multiset(WalkChanges(Dual(ctx), pb[n], pa[n], here, depth + 1)));
    } else {
      LoneNameDuality(ctx, oa, ob, path, depth, n);
    }
  }

  lemma MultisetOfSum(x: seq<Change>, y: seq<Change>)
    ensures multiset(x + y) == multiset(x) + multiset(y)
  {
  }

  lemma Cancel(r: multiset<Change>, w: multiset<Change>, x: multiset<Change>)
    ensures r + w == r + x <==> w == x
  {
    assert (r + w) - r == w && (r + x) - r == x;
  }

  lemma {:induction false} ItemsDuality(ctx: Ctx, oa: map<string, Json>, ob: map<string, Json>, path: seq<Step>,
                                        depth: nat)
    requires depth <= MAX_DEPTH && ctx.direction.Input?
    ensures multiset(ItemsChanges(ctx, oa, ob, path, depth)) == multiset(ItemsChanges(Dual(ctx), ob, oa, path, depth))
       <==> ("items" in oa && "items" in ob ==> Mirrored(ctx, oa["items"], ob["items"], depth + 1))
    decreases Room(depth), 0
  {
    hide WalkChanges, Mirrored;
    if "items" in oa && "items" in ob {
      WalkDuality(ctx, oa["items"], ob["items"], path + [Key("items")], depth + 1);
    }
  }

  lemma {:induction false} BranchKeyDuality(ctx: Ctx, oa: map<string, Json>, ob: map<string, Json>, path: seq<Step>,
                                            depth: nat, key: string)
    requires depth <= MAX_DEPTH && ctx.direction.Input?
    ensures multiset(BranchKeyChange(ctx, oa, ob, path, depth, key))
         == multiset(BranchKeyChange(Dual(ctx), ob, oa, path, depth, key))
       <==> BranchesMirrored(ctx, oa, ob, depth, key)
    decreases Room(depth), 1
  {
    hide BranchChanges, Mirrored;
    var (la, lb) := (Branches(oa, key), Branches(ob, key));
    if la.Some? && lb.Some? && |la.value| == |lb.value| {
      BranchesDuality(ctx, la.value, lb.value, key, path, depth);
    }
  }

  ghost predicate AllMirrored(ctx: Ctx, la: seq<Json>, lb: seq<Json>, depth: nat, from: nat)
    requires |la| == |lb|
  {
    forall i :: from <= i < |la| ==> Mirrored(ctx, la[i], lb[i], depth + 1)
  }

  ghost predicate BranchIsDual(ctx: Ctx, la: seq<Json>, lb: seq<Json>, key: string, path: seq<Step>, depth: nat, i: nat)
    requires |la| == |lb| && i < |la|
  {
    var here := path + [Branch(key, i)];
    multiset(WalkChanges(ctx, la[i], lb[i], here, depth + 1))
    == multiset(WalkChanges(Dual(ctx), lb[i], la[i], here, depth + 1))
  }

  lemma {:induction false} BranchesDuality(ctx: Ctx, la: seq<Json>, lb: seq<Json>, key: string, path: seq<Step>,
                                           depth: nat)
    requires depth <= MAX_DEPTH && ctx.direction.Input? && |la| == |lb|
    ensures multiset(BranchChanges(ctx, la, lb, key, path, depth, 0))
         == multiset(BranchChanges(Dual(ctx), lb, la, key, path, depth, 0))
       <==> AllMirrored(ctx, la, lb, depth, 0)
    decreases Room(depth), 0
  {
    hide WalkChanges, Mirrored, BranchChanges;
    var (m, d) := (multiset(BranchChanges(ctx, la, lb, key, path, depth, 0)),
                   multiset(BranchChanges(Dual(ctx), lb, la, key, path, depth, 0)));
    forall i | 0 <= i < |la|
      ensures BranchIsDual(ctx, la, lb, key, path, depth, i) <==> Mirrored(ctx, la[i], lb[i], depth + 1)
    {
      WalkDuality(ctx, la[i], lb[i], path + [Branch(key, i)], depth + 1);
    }
    if AllMirrored(ctx, la, lb, depth, 0) {
      BranchesEqual(ctx, la, lb, key, path, depth, 0);
    }
    if m == d {
      forall i | 0 <= i < |la| ensures Mirrored(ctx, la[i], lb[i], depth + 1) {
        BranchEqual(ctx, la, lb, key, path, depth, i);
      }
    }
  }

  lemma {:induction false} BranchesEqual(ctx: Ctx, la: seq<Json>, lb: seq<Json>, key: string, path: seq<Step>,
                                         depth: nat, from: nat)
    requires depth <= MAX_DEPTH && |la| == |lb| && from <= |la|
    requires forall i :: 0 <= i < |la| ==> BranchIsDual(ctx, la, lb, key, path, depth, i)
    ensures multiset(BranchChanges(ctx, la, lb, key, path, depth, from))
          == multiset(BranchChanges(Dual(ctx), lb, la, key, path, depth, from))
    decreases |la| - from
  {
    hide WalkChanges;
    if from < |la| {
      var here := path + [Branch(key, from)];
      assert BranchIsDual(ctx, la, lb, key, path, depth, from);
      BranchesEqual(ctx, la, lb, key, path, depth, from + 1);
      MultisetOfSum(WalkChanges(ctx, la[from], lb[from], here, depth + 1),
                    BranchChanges(ctx, la, lb, key, path, depth, from + 1));
      MultisetOfSum(WalkChanges(Dual(ctx), lb[from], la[from], here, depth + 1),
                    BranchChanges(Dual(ctx), lb, la, key, path, depth, from + 1));
    }
  }

  lemma BranchEqual(ctx: Ctx, la: seq<Json>, lb: seq<Json>, key: string, path: seq<Step>, depth: nat, i: nat)
    requires depth <= MAX_DEPTH && |la| == |lb| && i < |la|
    requires multiset(BranchChanges(ctx, la, lb, key, path, depth, 0))
           == multiset(BranchChanges(Dual(ctx), lb, la, key, path, depth, 0))
    ensures BranchIsDual(ctx, la, lb, key, path, depth, i)
  {
    hide WalkChanges, BranchChanges;
    var here := path + [Branch(key, i)];
    var (w, x) := (WalkChanges(ctx, la[i], lb[i], here, depth + 1),
                   WalkChanges(Dual(ctx), lb[i], la[i], here, depth + 1));
    WalkPlaces(ctx, la[i], lb[i], here, depth + 1);
    WalkPlaces(Dual(ctx), lb[i], la[i], here, depth + 1);
    forall c: Change ensures multiset(w)[c] == multiset(x)[c] {
      if here <= c.path {
        BranchAt(ctx, la, lb, key, path, depth, 0, i, c);
        BranchAt(Dual(ctx), lb, la, key, path, depth, 0, i, c);
      } else {
        assert c !in w && c !in x;
      }
    }
  }

  lemma {:induction false} WalkDuality(ctx: Ctx, a: Json, b: Json, path: seq<Step>, depth: nat)
    requires ctx.direction.Input?
    ensures multiset(WalkChanges(ctx, a, b, path, depth)) == multiset(WalkChanges(Dual(ctx), b, a, path, depth))
       <==> Mirrored(ctx, a, b, depth)
    decreases Room(depth), 3
  {
    hide NodeChanges, NodeMirrored;
    if depth <= MAX_DEPTH {
      var ra := Resolved(ctx.rootA, a, HopsAt(depth));
      var rb := Resolved(ctx.rootB, b, HopsAt(depth));
      if ra != rb && ra.Object? && rb.Object? {
        NodeDuality(ctx, ra.fields, rb.fields, path, depth);
      }
    }
  }

  lemma {:induction false} NodeDuality(ctx: Ctx, oa: map<string, Json>, ob: map<string, Json>, path: seq<Step>,
                                       depth: nat)
    requires depth <= MAX_DEPTH && ctx.direction.Input?
    ensures multiset(NodeChanges(ctx, KEYWORDS, oa, ob, path, depth))
         == multiset(NodeChanges(Dual(ctx), KEYWORDS, ob, oa, path, depth))
       <==> NodeMirrored(ctx, oa, ob, depth)
    decreases Room(depth), 2
  {
    hide NodeChanges, NameChanges, ItemsChanges, BranchKeyChange, NameMirrored, Mirrored, BranchesMirrored;
    forall n
      ensures NameChanges(ctx, oa, ob, path, depth, n) == NameChanges(Dual(ctx), ob, oa, path, depth, n)
         <==> NameMirrored(ctx, oa, ob, depth, n)
    {
      NameDuality(ctx, oa, ob, path, depth, n);
    }
    ItemsDuality(ctx, oa, ob, path, depth);
    forall key
      ensures multiset(BranchKeyChange(ctx, oa, ob, path, depth, key))
           == multiset(BranchKeyChange(Dual(ctx), ob, oa, path, depth, key))
         <==> BranchesMirrored(ctx, oa, ob, depth, key)
    {
      BranchKeyDuality(ctx, oa, ob, path, depth, key);
    }
    var there := NodeChanges(ctx, KEYWORDS, oa, ob, path, depth);
    if multiset(there) == multiset(NodeChanges(Dual(ctx), KEYWORDS, ob, oa, path, depth)) {
      PartsFromWhole(ctx, oa, ob, path, depth);
    }
    if NodeMirrored(ctx, oa, ob, depth) {
      WholeFromParts(ctx, oa, ob, path, depth);
    }
  }

  ghost predicate PartsEqual(ctx: Ctx, oa: map<string, Json>, ob: map<string, Json>, path: seq<Step>, depth: nat)
    requires depth <= MAX_DEPTH
  {
    && (forall n :: n in Properties(oa) || n in Properties(ob) ==>
          NameChanges(ctx, oa, ob, path, depth, n) == NameChanges(Dual(ctx), ob, oa, path, depth, n))
    && multiset(ItemsChanges(ctx, oa, ob, path, depth)) == multiset(ItemsChanges(Dual(ctx), ob, oa, path, depth))
    && (forall key :: key in KEYWORDS.branches ==>
          multiset(BranchKeyChange(ctx, oa, ob, path, depth, key))
          == multiset(BranchKeyChange(Dual(ctx), ob, oa, path, depth, key)))
  }

  lemma WholeFromParts(ctx: Ctx, oa: map<string, Json>, ob: map<string, Json>, path: seq<Step>, depth: nat)
    requires depth <= MAX_DEPTH
    requires PartsEqual(ctx, oa, ob, path, depth)
    ensures multiset(NodeChanges(ctx, KEYWORDS, oa, ob, path, depth))
          == multiset(NodeChanges(Dual(ctx), KEYWORDS, ob, oa, path, depth))
  {
    hide NodeChanges, NamesPart, KeywordPart, BranchPart, NameChanges, ItemsChanges, BranchKeyChange, Properties;
    NodeIsItsParts(ctx, oa, ob, path, depth);
    NodeIsItsParts(Dual(ctx), ob, oa, path, depth);
    KeywordPartIsDual(ctx, oa, ob, path);
    NamesPartIsDual(ctx, oa, ob, path, depth);
    BranchKeysEqual(ctx, oa, ob, path, depth, KEYWORDS.branches);
  }

  lemma NamesPartIsDual(ctx: Ctx, oa: map<string, Json>, ob: map<string, Json>, path: seq<Step>, depth: nat)
    requires depth <= MAX_DEPTH
    requires forall n :: n in Properties(oa) || n in Properties(ob) ==>
               NameChanges(ctx, oa, ob, path, depth, n) == NameChanges(Dual(ctx), ob, oa, path, depth, n)
    ensures NamesPart(ctx, oa, ob, path, depth) == NamesPart(Dual(ctx), ob, oa, path, depth)
  {
    hide NameChanges, Sum, Properties;
    var names := Properties(oa).Keys + Properties(ob).Keys;
    assert names == Properties(ob).Keys + Properties(oa).Keys;
    SumCongruence(names, n => NameChanges(ctx, oa, ob, path, depth, n),
                  n => NameChanges(Dual(ctx), ob, oa, path, depth, n));
  }

  lemma KeywordPartIsDual(ctx: Ctx, oa: map<string, Json>, ob: map<string, Json>, path: seq<Step>)
    ensures KeywordPart(ctx, oa, ob, path) == KeywordPart(Dual(ctx), ob, oa, path)
  {
    hide KeywordChanges, UnknownChanges, Sorted, Keywords.Handled;
    KeywordsAreDual(ctx, KEYWORDS, oa, ob, path);
    assert oa.Keys + ob.Keys == ob.Keys + oa.Keys;
    UnknownAreDual(ctx, oa, ob, path, KEYWORDS.Handled(), Sorted(oa.Keys + ob.Keys));
  }

  lemma {:induction false} BranchKeysEqual(ctx: Ctx, oa: map<string, Json>, ob: map<string, Json>, path: seq<Step>,
                                           depth: nat, keys: seq<string>)
    requires depth <= MAX_DEPTH
    requires forall key :: key in keys ==>
               multiset(BranchKeyChange(ctx, oa, ob, path, depth, key))
               == multiset(BranchKeyChange(Dual(ctx), ob, oa, path, depth, key))
    ensures BranchPart(ctx, oa, ob, path, depth, keys) == BranchPart(Dual(ctx), ob, oa, path, depth, keys)
  {
    hide BranchKeyChange;
    if keys != [] {
      BranchKeysEqual(ctx, oa, ob, path, depth, keys[1..]);
      MultisetOfSum(BranchKeyChange(ctx, oa, ob, path, depth, keys[0]),
                    BranchKeyChanges(ctx, oa, ob, path, depth, keys[1..]));
      MultisetOfSum(BranchKeyChange(Dual(ctx), ob, oa, path, depth, keys[0]),
                    BranchKeyChanges(Dual(ctx), ob, oa, path, depth, keys[1..]));
    }
  }

  lemma PartsFromWhole(ctx: Ctx, oa: map<string, Json>, ob: map<string, Json>, path: seq<Step>, depth: nat)
    requires depth <= MAX_DEPTH
    requires multiset(NodeChanges(ctx, KEYWORDS, oa, ob, path, depth))
           == multiset(NodeChanges(Dual(ctx), KEYWORDS, ob, oa, path, depth))
    ensures PartsEqual(ctx, oa, ob, path, depth)
  {
    hide NodeChanges, NameChanges, ItemsChanges, BranchKeyChange;
    forall n ensures NameChanges(ctx, oa, ob, path, depth, n) == NameChanges(Dual(ctx), ob, oa, path, depth, n) {
      NameFromWhole(ctx, oa, ob, path, depth, n);
    }
    ItemsFromWhole(ctx, oa, ob, path, depth);
    forall key | key in KEYWORDS.branches
      ensures multiset(BranchKeyChange(ctx, oa, ob, path, depth, key))
            == multiset(BranchKeyChange(Dual(ctx), ob, oa, path, depth, key))
    {
      BranchKeyFromWhole(ctx, oa, ob, path, depth, key);
    }
  }

  lemma NameFromWhole(ctx: Ctx, oa: map<string, Json>, ob: map<string, Json>, path: seq<Step>, depth: nat, n: string)
    requires depth <= MAX_DEPTH
    requires multiset(NodeChanges(ctx, KEYWORDS, oa, ob, path, depth))
           == multiset(NodeChanges(Dual(ctx), KEYWORDS, ob, oa, path, depth))
    ensures NameChanges(ctx, oa, ob, path, depth, n) == NameChanges(Dual(ctx), ob, oa, path, depth, n)
  {
    hide NodeChanges, NameChanges, AtName;
    var (x, y) := (NameChanges(ctx, oa, ob, path, depth, n), NameChanges(Dual(ctx), ob, oa, path, depth, n));
    forall c: Change ensures x[c] == y[c] {
      if AtName(c, path, n) {
        NameAlone(ctx, oa, ob, path, depth, n, c);
        NameAlone(Dual(ctx), ob, oa, path, depth, n, c);
      } else {
        if c in x { NamePlaces(ctx, oa, ob, path, depth, n, c); }
        if c in y { NamePlaces(Dual(ctx), ob, oa, path, depth, n, c); }
      }
    }
  }

  lemma ItemsFromWhole(ctx: Ctx, oa: map<string, Json>, ob: map<string, Json>, path: seq<Step>, depth: nat)
    requires depth <= MAX_DEPTH
    requires multiset(NodeChanges(ctx, KEYWORDS, oa, ob, path, depth))
           == multiset(NodeChanges(Dual(ctx), KEYWORDS, ob, oa, path, depth))
    ensures multiset(ItemsChanges(ctx, oa, ob, path, depth)) == multiset(ItemsChanges(Dual(ctx), ob, oa, path, depth))
  {
    hide NodeChanges, ItemsChanges;
    var (x, y) := (ItemsChanges(ctx, oa, ob, path, depth), ItemsChanges(Dual(ctx), ob, oa, path, depth));
    ItemsPlaces(ctx, oa, ob, path, depth);
    ItemsPlaces(Dual(ctx), ob, oa, path, depth);
    forall c: Change ensures multiset(x)[c] == multiset(y)[c] {
      if AtItems(c, path) {
        ItemsAlone(ctx, oa, ob, path, depth, c);
        ItemsAlone(Dual(ctx), ob, oa, path, depth, c);
      } else {
        assert c !in x && c !in y;
      }
    }
  }

  lemma BranchKeyFromWhole(ctx: Ctx, oa: map<string, Json>, ob: map<string, Json>, path: seq<Step>, depth: nat,
                           key: string)
    requires depth <= MAX_DEPTH && key in KEYWORDS.branches
    requires multiset(NodeChanges(ctx, KEYWORDS, oa, ob, path, depth))
           == multiset(NodeChanges(Dual(ctx), KEYWORDS, ob, oa, path, depth))
    ensures multiset(BranchKeyChange(ctx, oa, ob, path, depth, key))
          == multiset(BranchKeyChange(Dual(ctx), ob, oa, path, depth, key))
  {
    hide NodeChanges, BranchKeyChange;
    var (x, y) := (BranchKeyChange(ctx, oa, ob, path, depth, key),
                   BranchKeyChange(Dual(ctx), ob, oa, path, depth, key));
    BranchKeyPlace(ctx, oa, ob, path, depth, key);
    BranchKeyPlace(Dual(ctx), ob, oa, path, depth, key);
    forall c: Change ensures multiset(x)[c] == multiset(y)[c] {
      if AtBranchKey(c, path, key) {
        BranchKeyAlone(ctx, oa, ob, path, depth, key, c);
        BranchKeyAlone(Dual(ctx), ob, oa, path, depth, key, c);
      } else {
        assert c !in x && c !in y;
      }
    }
  }

  /** Both comparisons append the same changes, counted, exactly when the schemas mirror each other. */
  lemma DirectionDuality(a: Json, b: Json, kind: ItemKind, name: string, path: seq<Step>)
    ensures multiset(CompareChanges(a, b, Input, kind, name, path))
         == multiset(CompareChanges(b, a, Output, kind, name, path))
       <==> Mirrored(Ctx(a, b, Input, kind, name), a, b, 0)
  {
    hide WalkChanges, NodeMirrored;
    WalkDuality(Ctx(a, b, Input, kind, name), a, b, path, 0);
  }

  /** The two schemas declare the same property names wherever the walk compares them. */
  ghost predicate SameNames(ctx: Ctx, a: Json, b: Json, depth: nat)
    decreases Room(depth), 2
  {
    var ra := Resolved(ctx.rootA, a, HopsAt(depth));
    var rb := Resolved(ctx.rootB, b, HopsAt(depth));
    depth <= MAX_DEPTH && ra != rb && ra.Object? && rb.Object? ==> NodeSameNames(ctx, ra.fields, rb.fields, depth)
  }

  ghost predicate NodeSameNames(ctx: Ctx, oa: map<string, Json>, ob: map<string, Json>, depth: nat)
    requires depth <= MAX_DEPTH
    decreases Room(depth), 1
  {
    && Properties(oa).Keys == Properties(ob).Keys
    && (forall n :: n in Properties(oa) && n in Properties(ob) ==>
          SameNames(ctx, Properties(oa)[n], Properties(ob)[n], depth + 1))
    && ("items" in oa && "items" in ob ==> SameNames(ctx, oa["items"], ob["items"], depth + 1))
    && (forall key :: key in KEYWORDS.branches ==> BranchesSameNames(ctx, oa, ob, depth, key))
  }

  ghost predicate BranchesSameNames(ctx: Ctx, oa: map<string, Json>, ob: map<string, Json>, depth: nat, key: string)
    requires depth <= MAX_DEPTH
    decreases Room(depth), 0
  {
    var (la, lb) := (Branches(oa, key), Branches(ob, key));
    la.Some? && lb.Some? && |la.value| == |lb.value| ==>
      forall i :: 0 <= i < |la.value| ==> SameNames(ctx, la.value[i], lb.value[i], depth + 1)
  }

  lemma {:induction false} SameNamesMirror(ctx: Ctx, a: Json, b: Json, depth: nat)
    requires SameNames(ctx, a, b, depth)
    ensures Mirrored(ctx, a, b, depth)
    decreases Room(depth), 1
  {
    hide NodeMirrored, NodeSameNames;
    var ra := Resolved(ctx.rootA, a, HopsAt(depth));
    var rb := Resolved(ctx.rootB, b, HopsAt(depth));
    if depth <= MAX_DEPTH && ra != rb && ra.Object? && rb.Object? {
      NodeSameNamesMirror(ctx, ra.fields, rb.fields, depth);
    }
  }

  lemma {:induction false} NodeSameNamesMirror(ctx: Ctx, oa: map<string, Json>, ob: map<string, Json>, depth: nat)
    requires depth <= MAX_DEPTH && NodeSameNames(ctx, oa, ob, depth)
    ensures NodeMirrored(ctx, oa, ob, depth)
    decreases Room(depth), 0
  {
    hide SameNames, Mirrored;
    var (pa, pb) := (Properties(oa), Properties(ob));
    forall n | n in pa || n in pb ensures NameMirrored(ctx, oa, ob, depth, n) {
      assert n in pa.Keys && n in pb.Keys;
      SameNamesMirror(ctx, pa[n], pb[n], depth + 1);
    }
    if "items" in oa && "items" in ob {
      SameNamesMirror(ctx, oa["items"], ob["items"], depth + 1);
    }
    forall key | key in KEYWORDS.branches ensures BranchesMirrored(ctx, oa, ob, depth, key) {
      var (la, lb) := (Branches(oa, key), Branches(ob, key));
      if la.Some? && lb.Some? && |la.value| == |lb.value| {
        forall i | 0 <= i < |la.value| ensures Mirrored(ctx, la.value[i], lb.value[i], depth + 1) {
          SameNamesMirror(ctx, la.value[i], lb.value[i], depth + 1);
        }
      }
    }
  }

  /** Schemas that declare the same names at every level are classified alike both ways. */
  lemma SameNamesDuality(a: Json, b: Json, kind: ItemKind, name: string, path: seq<Step>)
    requires SameNames(Ctx(a, b, Input, kind, name), a, b, 0)
    ensures multiset(CompareChanges(a, b, Input, kind, name, path))
          == multiset(CompareChanges(b, a, Output, kind, name, path))
  {
    hide CompareChanges, Mirrored, SameNames;
    SameNamesMirror(Ctx(a, b, Input, kind, name), a, b, 0);
    DirectionDuality(a, b, kind, name, path);
  }
}
