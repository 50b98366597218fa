/** Why hypotheses of the soundness theorems are there: a comparison that reports nothing breaking, a
    value the change breaks, and the hypothesis that the two schemas do not meet. */
module SchemaExamples {
  import opened Json
  import opened Changes
  import opened Pointer
  import opened SchemaDiff
  import opened SchemaMeaning
  import opened SchemaSoundness
  import opened SchemaUses
  import D = SchemaDuality

  /** Opaque keywords accept everything. */
  const FREE := Env((k, x, v) => true, (r, v) => true, (r, n) => false, r => 0)

  // --- Schemas that differ at one keyword ---

  ghost predicate SameBut(oa: map<string, Json>, ob: map<string, Json>, key: string) {
    forall k :: k != key && (k in oa || k in ob) ==> Get(oa, k) == Get(ob, k)
  }

  predicate Unreferenced(s: Json) {
    Field(s, "$ref") == None
  }

  /** No schema directly below `o` is a reference. */
  predicate ChildrenUnreferenced(o: map<string, Json>) {
    && (forall n :: n in Properties(o) ==> Unreferenced(Properties(o)[n]))
    && ("items" in o ==> Unreferenced(o["items"]))
    && (forall key :: key in KEYWORDS.branches && Branches(o, key).Some? ==>
          forall x :: x in o[key].items ==> Unreferenced(x))
  }

  lemma SameIsSilent(ctx: Ctx, s: Json, path: seq<Step>, depth: nat)
    requires Unreferenced(s)
    ensures WalkChanges(ctx, s, s, path, depth) == []
  {
    hide NodeChanges;
    assert Resolved(ctx.rootA, s, HopsAt(depth)) == s == Resolved(ctx.rootB, s, HopsAt(depth));
  }

  lemma {:induction false} MetadataIsCosmetic(ctx: Ctx, oa: map<string, Json>, ob: map<string, Json>, path: seq<Step>,
                                              keys: seq<string>)
    ensures NoBreaking(MetadataChanges(ctx, oa, ob, path, keys))
  {
    if keys != [] {
      MetadataIsCosmetic(ctx, oa, ob, path, keys[1..]);
    }
  }

  lemma {:induction false} BoundsAreSilent(ctx: Ctx, oa: map<string, Json>, ob: map<string, Json>, path: seq<Step>,
                                           bounds: seq<(string, bool)>)
    requires forall b :: b in bounds ==> Get(oa, b.0) == Get(ob, b.0)
    ensures BoundChanges(ctx, oa, ob, path, bounds) == []
  {
    if bounds != [] {
      BoundsAreSilent(ctx, oa, ob, path, bounds[1..]);
    }
  }

  lemma {:induction false} FixedAreSilent(ctx: Ctx, oa: map<string, Json>, ob: map<string, Json>, path: seq<Step>,
                                          keys: seq<string>)
    requires forall k :: k in keys ==> Get(oa, k) == Get(ob, k)
    ensures FixedChanges(ctx, oa, ob, path, keys) == []
  {
    if keys != [] {
      FixedAreSilent(ctx, oa, ob, path, keys[1..]);
    }
  }

  lemma {:induction false} UnknownAreSilent(ctx: Ctx, oa: map<string, Json>, ob: map<string, Json>, path: seq<Step>,
                                            handled: set<string>, keys: seq<string>)
    requires forall k :: k in keys && k !in handled ==> Get(oa, k) == Get(ob, k)
    ensures UnknownChanges(ctx, oa, ob, path, handled, keys) == []
  {
    if keys != [] {
      UnknownAreSilent(ctx, oa, ob, path, handled, keys[1..]);
    }
  }

  lemma {:induction false} PropertiesAreSilent(ctx: Ctx, oa: map<string, Json>, ob: map<string, Json>, path: seq<Step>,
                                               depth: nat, names: seq<string>)
    requires depth <= MAX_DEPTH
    requires Properties(oa) == Properties(ob) && ChildrenUnreferenced(oa)
    requires forall n :: n in names ==> n in Properties(oa) && Requires(oa, n) == Requires(ob, n)
    ensures PropertyChanges(ctx, oa, ob, path, depth, names) == []
    ensures AddedChanges(ctx, oa, ob, path, names) == []
  {
    hide WalkChanges, Requires;
    if names != [] {
      SameIsSilent(ctx, Properties(oa)[names[0]], path + [Property(names[0])], depth + 1);
      PropertiesAreSilent(ctx, oa, ob, path, depth, names[1..]);
    }
  }

  lemma {:induction false} BranchesAreSilent(ctx: Ctx, l: seq<Json>, key: string, path: seq<Step>, depth: nat,
                                             from: nat)
    requires depth <= MAX_DEPTH && from <= |l|
    requires forall x :: x in l ==> Unreferenced(x)
    ensures BranchChanges(ctx, l, l, key, path, depth, from) == []
    decreases |l| - from
  {
    hide WalkChanges;
    if from < |l| {
      SameIsSilent(ctx, l[from], path + [Branch(key, from)], depth + 1);
      BranchesAreSilent(ctx, l, key, path, depth, from + 1);
    }
  }

  lemma {:induction false} BranchKeysAreSilent(ctx: Ctx, oa: map<string, Json>, ob: map<string, Json>, path: seq<Step>,
                                               depth: nat, keys: seq<string>, but: string)
    requires depth <= MAX_DEPTH
    requires SameBut(oa, ob, but)
    requires but in keys ==> NoBreaking(BranchKeyChange(ctx, oa, ob, path, depth, but))
    requires forall key :: key in keys && Branches(oa, key).Some? ==> forall x :: x in oa[key].items ==> Unreferenced(x)
    ensures NoBreaking(BranchKeyChanges(ctx, oa, ob, path, depth, keys))
  {
    hide BranchChanges;
    if keys != [] {
      if keys[0] != but && Branches(oa, keys[0]).Some? {
        assert Get(oa, keys[0]) == Get(ob, keys[0]);
        BranchesAreSilent(ctx, oa[keys[0]].items, keys[0], path, depth, 0);
      }
      BranchKeysAreSilent(ctx, oa, ob, path, depth, keys[1..], but);
    }
  }

  /** What the keywords other than `properties` and `required` report when only `key` differs. */
  ghost predicate QuietAt(ctx: Ctx, oa: map<string, Json>, ob: map<string, Json>, path: seq<Step>, depth: nat,
                          key: string)
    requires depth <= MAX_DEPTH
  {
    && (key in {"type", "anyOf", "oneOf"} ==> NoBreaking(TypeChanges(ctx, oa, ob, path)))
    && (key == "enum" ==> NoBreaking(EnumChanges(ctx, oa, ob, path)))
    && (key == "additionalProperties" ==> NoBreaking(AdditionalChanges(ctx, oa, ob, path)))
    && (key == "items" ==> NoBreaking(ItemsChanges(ctx, oa, ob, path, depth)))
    && (key in KEYWORDS.branches ==> NoBreaking(BranchKeyChange(ctx, oa, ob, path, depth, key)))
  }

  /** Keywords whose difference these examples are about. */
  predicate Considered(key: string) {
    key in {"type", "enum", "additionalProperties", "properties", "required", "items", "anyOf", "oneOf", "allOf",
            "$defs"}
  }

  lemma ConsideredIsNoBound(key: string)
    requires Considered(key)
    ensures forall b :: b in KEYWORDS.bounds ==> b.0 != key
  {
    var m := KEYWORDS.bounds;
    assert |m| == 10;
    assert m[1].0[0] == m[6].0[0] == 'e' && m[1].0[1] == m[6].0[1] == 'x';
    assert m[0].0[0] == m[2].0[0] == m[3].0[0] == m[4].0[0] == m[5].0[0] == m[7].0[0] == m[8].0[0] == m[9].0[0] == 'm';
    assert forall i :: 0 <= i < |m| ==> |m[i].0| > 1 && (m[i].0[0] == 'm' || (m[i].0[0] == 'e' && m[i].0[1] == 'x'));
    assert |key| > 1 && key[0] != 'm' && (key[0] == 'e' ==> key[1] == 'n');
  }

  lemma ConsideredIsNotFixed(key: string)
    requires Considered(key)
    ensures key !in KEYWORDS.fixedKeys
  {
    var m := KEYWORDS.fixedKeys;
    assert |m| == 4 && m[0][0] == 'p' && m[0][1] == 'a' && m[1][0] == 'f' && m[2][0] == 'm' && m[3][0] == 'u';
    assert |key| > 1 && key[0] !in {'f', 'm', 'u'} && (key[0] == 'p' ==> key[1] == 'r');
  }

  lemma ConsideredIsHandled(key: string)
    requires Considered(key)
    ensures key in KEYWORDS.Handled() && key != "const"
  {
    var m := KEYWORDS.branches;
    assert m[0] == "anyOf" && m[1] == "oneOf" && m[2] == "allOf";
    assert "const"[0] == 'c' && key[0] != 'c';
    HandledParts(KEYWORDS, key);
  }

  lemma HandledParts(keys: Keywords, key: string)
    ensures key in keys.branches || key in {"type", "enum", "additionalProperties", "properties", "required", "items",
                                            "$defs"}
            ==> key in keys.Handled()
  {
  }

  lemma QuietKeywords(ctx: Ctx, oa: map<string, Json>, ob: map<string, Json>, path: seq<Step>, depth: nat, key: string)
    requires depth <= MAX_DEPTH
    requires SameBut(oa, ob, key) && Considered(key)
    requires QuietAt(ctx, oa, ob, path, depth, key)
    ensures NoBreaking(KeywordChanges(ctx, KEYWORDS, oa, ob, path))
    ensures UnknownChanges(ctx, oa, ob, path, KEYWORDS.Handled(), Sorted(oa.Keys + ob.Keys)) == []
  {
    hide MetadataChanges, BoundChanges, FixedChanges, UnknownChanges, Keywords.Handled, Sorted, ItemsChanges,
      BranchKeyChange;
    MetadataIsCosmetic(ctx, oa, ob, path, KEYWORDS.metadata);
    ConsideredIsNoBound(key);
    BoundsAreSilent(ctx, oa, ob, path, KEYWORDS.bounds);
    ConsideredIsNotFixed(key);
    FixedAreSilent(ctx, oa, ob, path, KEYWORDS.fixedKeys);
    ConsideredIsHandled(key);
    UnknownAreSilent(ctx, oa, ob, path, KEYWORDS.Handled(), Sorted(oa.Keys + ob.Keys));
    SimpleKeywordsAgree(ctx, oa, ob, path, key);
    assert NoBreaking(TypeChanges(ctx, oa, ob, path)) && NoBreaking(EnumChanges(ctx, oa, ob, path));
    assert NoBreaking(AdditionalChanges(ctx, oa, ob, path));
  }

  lemma SimpleKeywordsAgree(ctx: Ctx, oa: map<string, Json>, ob: map<string, Json>, path: seq<Step>, key: string)
    requires SameBut(oa, ob, key)
    ensures key !in {"type", "anyOf", "oneOf"} ==> TypeChanges(ctx, oa, ob, path) == []
    ensures key != "enum" ==> EnumChanges(ctx, oa, ob, path) == []
    ensures key != "const" ==> ConstChanges(ctx, oa, ob, path) == []
    ensures key != "additionalProperties" ==> AdditionalChanges(ctx, oa, ob, path) == []
  {
    assert key != "type" ==> Get(oa, "type") == Get(ob, "type");
    assert key != "anyOf" ==> Get(oa, "anyOf") == Get(ob, "anyOf");
    assert key != "oneOf" ==> Get(oa, "oneOf") == Get(ob, "oneOf");
    assert key != "enum" ==> Get(oa, "enum") == Get(ob, "enum");
    assert key != "const" ==> Get(oa, "const") == Get(ob, "const");
    assert key != "additionalProperties" ==> Get(oa, "additionalProperties") == Get(ob, "additionalProperties");
  }

  lemma QuietNode(ctx: Ctx, oa: map<string, Json>, ob: map<string, Json>, path: seq<Step>, depth: nat, key: string)
    requires depth <= MAX_DEPTH
    requires SameBut(oa, ob, key) && Considered(key) && ChildrenUnreferenced(oa)
    requires QuietAt(ctx, oa, ob, path, depth, key)
    requires key in {"properties", "required"} ==>
               && NoBreaking(PropertyChanges(ctx, oa, ob, path, depth, Sorted(Properties(oa).Keys)))
               && NoBreaking(AddedChanges(ctx, oa, ob, path, Sorted(Properties(ob).Keys)))
    ensures NoBreaking(NodeChanges(ctx, KEYWORDS, oa, ob, path, depth))
  {
    hide KeywordChanges, PropertyChanges, AddedChanges, BranchKeyChange, BranchKeyChanges, UnknownChanges,
      ItemsChanges, WalkChanges,
      Sorted, Keywords.Handled, TypeChanges, EnumChanges, AdditionalChanges;
    QuietKeywords(ctx, oa, ob, path, depth, key);
    BranchKeysAreSilent(ctx, oa, ob, path, depth, KEYWORDS.branches, key);
    QuietProperties(ctx, oa, ob, path, depth, key);
    QuietItems(ctx, oa, ob, path, depth, key);
  }

  lemma QuietProperties(ctx: Ctx, oa: map<string, Json>, ob: map<string, Json>, path: seq<Step>, depth: nat,
                        key: string)
    requires depth <= MAX_DEPTH
    requires SameBut(oa, ob, key) && ChildrenUnreferenced(oa)
    ensures key !in {"properties", "required"} ==>
              PropertyChanges(ctx, oa, ob, path, depth, Sorted(Properties(oa).Keys)) == []
    ensures key !in {"properties", "required"} ==> AddedChanges(ctx, oa, ob, path, Sorted(Properties(ob).Keys)) == []
  {
    hide PropertyChanges, AddedChanges, Sorted;
    if key !in {"properties", "required"} {
      assert Get(oa, "properties") == Get(ob, "properties") && Get(oa, "required") == Get(ob, "required");
      PropertiesAreSilent(ctx, oa, ob, path, depth, Sorted(Properties(oa).Keys));
    }
  }

  lemma QuietItems(ctx: Ctx, oa: map<string, Json>, ob: map<string, Json>, path: seq<Step>, depth: nat, key: string)
    requires depth <= MAX_DEPTH
    requires SameBut(oa, ob, key) && ChildrenUnreferenced(oa)
    ensures key != "items" ==> ItemsChanges(ctx, oa, ob, path, depth) == []
  {
    hide WalkChanges;
    if key != "items" {
      assert Get(oa, "items") == Get(ob, "items");
      if "items" in oa {
        SameIsSilent(ctx, oa["items"], path + [Key("items")], depth + 1);
      }
    }
  }

  lemma QuietCompare(direction: Direction, oa: map<string, Json>, ob: map<string, Json>, kind: ItemKind, name: string,
                     path: seq<Step>)
    requires "$ref" !in oa && "$ref" !in ob
    requires NoBreaking(NodeChanges(Ctx(Object(oa), Object(ob), direction, kind, name), KEYWORDS, oa, ob, path, 0))
    ensures NoBreaking(CompareChanges(Object(oa), Object(ob), direction, kind, name, path))
  {
    hide NodeChanges;
    var ctx := Ctx(Object(oa), Object(ob), direction, kind, name);
    assert Resolved(ctx.rootA, ctx.rootA, HopsAt(0)) == ctx.rootA;
    assert Resolved(ctx.rootB, ctx.rootB, HopsAt(0)) == ctx.rootB;
  }

  /** The change from `a` to `b` is not reported as breaking, and breaks `v`. */
  ghost predicate Missed(a: Json, b: Json, v: Json) {
    && NoBreaking(CompareChanges(a, b, Input, Tool, "", []))
    && Accepts(FREE, Avoiding(b), a, v)
    && !Accepts(FREE, AsWritten, b, v)
  }

  lemma NoKeywordsAccept(extras: Extras, v: Json)
    requires NamesOk(extras, map[], v)
    ensures Accepts(FREE, extras, Object(map[]), v)
  {
    hide Rest, NamesOk;
    var o: map<string, Json> := map[];
    assert KeywordsOk(FREE, o, v);
  }

  ghost function Context(direction: Direction, oa: map<string, Json>, ob: map<string, Json>): Ctx {
    Ctx(Object(oa), Object(ob), direction, Tool, "")
  }

  lemma Rejects(extras: Extras, s: Json, v: Json)
    requires s.Object?
    requires !KeywordsOk(FREE, s.fields, v) || !ExtrasOk(FREE, extras, s, v) || !PropertiesOk(FREE, extras, s, v)
          || !AllOk(FREE, extras, s, v) || !OneOk(FREE, s, v)
    ensures !Accepts(FREE, extras, s, v)
  {
    hide KeywordsOk, ExtrasOk, PropertiesOk, AllOk, OneOk;
  }

  /** A schema made of one keyword that is not a simple one accepts what that keyword accepts. */
  lemma OnlySchemasAccept(extras: Extras, o: map<string, Json>, v: Json)
    requires forall k :: k in o ==> k in {"properties", "anyOf", "allOf", "oneOf"}
    requires NamesOk(extras, o, v)
    requires PropertiesOk(FREE, extras, Object(o), v) && AnyOk(FREE, extras, Object(o), v)
    requires AllOk(FREE, extras, Object(o), v) && OneOk(FREE, Object(o), v)
    ensures Accepts(FREE, extras, Object(o), v)
  {
    hide PropertiesOk, AnyOk, AllOk, OneOk, NamesOk, Rest;
    assert KeywordsOk(FREE, o, v);
  }

  // --- Which hypotheses a schema meets ---

  lemma ConsideredAlone(o: map<string, Json>)
    requires forall k :: k in o ==> Considered(k)
    ensures "$ref" !in o && !LooksBeside(o) && Rest(o) == map[]
    ensures forall b :: b in KEYWORDS.bounds ==> b.0 !in o
  {
    forall k | k in o ensures k in KEYWORDS.Handled() {
      ConsideredIsHandled(k);
    }
    forall b | b in KEYWORDS.bounds ensures b.0 !in o {
      if b.0 in o {
        ConsideredIsNoBound(b.0);
      }
    }
    assert !Considered("$ref") && !Considered("unevaluatedProperties") && !Considered("unevaluatedItems");
    hide Considered, Keywords.Handled;
  }

  predicate Shaped(o: map<string, Json>) {
    && TypesRead(o) && EnumWellFormed(o) && RequiredWellFormed(o)
    && ("additionalProperties" in o ==> o["additionalProperties"].Bool?)
    && ("properties" in o ==> o["properties"].Object?)
    && BranchesWellFormed(o, "anyOf") && BranchesWellFormed(o, "allOf") && BranchesWellFormed(o, "oneOf")
    && (Branches(o, "oneOf").Some? ==> forall x :: x in o["oneOf"].items ==> NoReferences(x))
  }

  lemma ShapedIsWellFormed(o: map<string, Json>)
    requires forall k :: k in o ==> Considered(k)
    requires Shaped(o)
    ensures NodeWellFormed(o) && Closed(o)
  {
    ConsideredAlone(o);
    hide Considered, TypesRead, EnumWellFormed, RequiredWellFormed, BranchesWellFormed, Rest, Properties;
  }

  predicate ChildrenCovered(o: map<string, Json>, depth: nat) {
    && (forall n :: n in Properties(o) ==> Covered(Properties(o)[n], depth + 1))
    && ("items" in o ==> Covered(o["items"], depth + 1))
    && (Branches(o, "anyOf").Some? ==> forall x :: x in o["anyOf"].items ==> Covered(x, depth + 1))
    && (Branches(o, "allOf").Some? ==> forall x :: x in o["allOf"].items ==> Covered(x, depth + 1))
  }

  /** A schema of keywords the comparison has rules for, which have their shapes. */
  lemma IsCovered(o: map<string, Json>, depth: nat)
    requires depth <= MAX_DEPTH && forall k :: k in o ==> Considered(k)
    requires Shaped(o) && ChildrenCovered(o, depth)
    ensures Covered(Object(o), depth)
  {
    ShapedIsWellFormed(o);
    hide Considered, Shaped, NodeWellFormed, Closed;
  }

  lemma EmptyIsCovered()
    ensures Covered(Object(EMPTY), 0)
  {
    hide Covered;
    IsCovered(EMPTY, 0);
  }

  lemma MatchedWithEmpty(ob: map<string, Json>)
    requires "enum" !in ob && "oneOf" !in ob
    ensures Matched(Object(EMPTY), Object(ob))
  {
    assert Get(EMPTY, "oneOf") == None == Get(ob, "oneOf");
  }

  // --- The examples ---

  const EMPTY: map<string, Json> := map[]
  const TRUE := Bool(true)
  const FALSE := Bool(false)

  /** `enum` on one side only: an absent `enum` is read as an empty one. */
  lemma AnEnumThatAppears()
    ensures var (a, b) := (Object(EMPTY), Object(map["enum" := Array([Number(1.0)])]));
            Missed(a, b, Number(2.0)) && Covered(a, 0) && Covered(b, 0) && !Matched(a, b)
  {
    EmptyIsCovered();
    EnumIsCovered(map["enum" := Array([Number(1.0)])], 0);
    NotMatched(EMPTY, map["enum" := Array([Number(1.0)])]);
    hide Missed, Covered, Matched;
    EnumIsMissed();
  }

  lemma NotMatched(oa: map<string, Json>, ob: map<string, Json>)
    requires ("enum" in oa) != ("enum" in ob)
    ensures !Matched(Object(oa), Object(ob))
  {
  }

  lemma EnumIsCovered(o: map<string, Json>, depth: nat)
    requires o.Keys == {"enum"} && o["enum"].Array? && depth <= MAX_DEPTH
    ensures Covered(Object(o), depth)
  {
    hide Covered;
    IsCovered(o, depth);
  }

  lemma EnumIsMissed()
    ensures Missed(Object(EMPTY), Object(map["enum" := Array([Number(1.0)])]), Number(2.0))
  {
    hide NodeChanges, CompareChanges, Accepts;
    var ob := map["enum" := Array([Number(1.0)])];
    NoKeywordsAccept(Avoiding(Object(ob)), Number(2.0));
    assert !EnumOk(ob, Number(2.0));
    Rejects(AsWritten, Object(ob), Number(2.0));
    QuietNode(Context(Input, EMPTY, ob), EMPTY, ob, [], 0, "enum");
    QuietCompare(Input, EMPTY, ob, Tool, "", []);
  }

  /** A `type` that lists no type reads as no `type`. */
  lemma AnEmptyTypeList()
    ensures var (a, b) := (Object(EMPTY), Object(map["type" := Array([])]));
            Missed(a, b, Null) && Covered(a, 0) && Matched(a, b) && !TypeWellFormed(b.fields)
  {
    EmptyIsCovered();
    MatchedWithEmpty(map["type" := Array([])]);
    hide Missed, Covered, Matched;
    EmptyTypeIsMissed();
  }

  lemma EmptyTypeIsMissed()
    ensures Missed(Object(EMPTY), Object(map["type" := Array([])]), Null)
  {
    hide NodeChanges, CompareChanges, Accepts;
    var ob := map["type" := Array([])];
    NoKeywordsAccept(Avoiding(Object(ob)), Null);
    assert !TypeOk(ob, Null);
    Rejects(AsWritten, Object(ob), Null);
    assert TypesOf(ob) == {} == TypesOf(EMPTY);
    QuietNode(Context(Input, EMPTY, ob), EMPTY, ob, [], 0, "type");
    QuietCompare(Input, EMPTY, ob, Tool, "", []);
  }

  /** `additionalProperties` that is a schema is not compared. */
  lemma ASchemaForOtherProperties()
    ensures var extra := Object(map["type" := String("string")]);
            var (a, b) := (Object(EMPTY), Object(map["additionalProperties" := extra]));
            && Missed(a, b, Object(map["x" := Null]))
            && Covered(a, 0) && Matched(a, b) && !b.fields["additionalProperties"].Bool?
  {
    EmptyIsCovered();
    MatchedWithEmpty(map["additionalProperties" := Object(map["type" := String("string")])]);
    hide Missed, Covered, Matched;
    OtherPropertiesAreMissed();
  }

  lemma OtherPropertiesAreMissed()
    ensures Missed(Object(EMPTY), Object(map["additionalProperties" := Object(map["type" := String("string")])]),
                   Object(map["x" := Null]))
  {
    hide NodeChanges, CompareChanges, Accepts;
    var extra := map["type" := String("string")];
    var ob := map["additionalProperties" := Object(extra)];
    OtherPropertiesAcceptance(extra, ob);
    OtherPropertiesAreQuiet(extra, ob);
  }

  lemma OtherPropertiesAcceptance(extra: map<string, Json>, ob: map<string, Json>)
    requires extra == map["type" := String("string")] && ob == map["additionalProperties" := Object(extra)]
    ensures Accepts(FREE, Avoiding(Object(ob)), Object(EMPTY), Object(map["x" := Null]))
    ensures !Accepts(FREE, AsWritten, Object(ob), Object(map["x" := Null]))
  {
    hide Accepts;
    var v := map["x" := Null];
    NoKeywordsAccept(Avoiding(Object(ob)), Object(v));
    assert !TypeOk(extra, Null);
    Rejects(AsWritten, Object(extra), Null);
    hide KeywordsOk, PropertiesOk, AllOk, OneOk, TypeOk;
    assert "x" in v && IsExtra(FREE, ob, "x") && v["x"] == Null;
    assert !ExtrasOk(FREE, AsWritten, Object(ob), Object(v));
    Rejects(AsWritten, Object(ob), Object(v));
  }

  lemma OtherPropertiesAreQuiet(extra: map<string, Json>, ob: map<string, Json>)
    requires extra == map["type" := String("string")] && ob == map["additionalProperties" := Object(extra)]
    ensures NoBreaking(CompareChanges(Object(EMPTY), Object(ob), Input, Tool, "", []))
  {
    hide NodeChanges, CompareChanges;
    QuietNode(Context(Input, EMPTY, ob), EMPTY, ob, [], 0, "additionalProperties");
    QuietCompare(Input, EMPTY, ob, Tool, "", []);
  }

  lemma NoPropertiesIsQuiet(ctx: Ctx, oa: map<string, Json>, ob: map<string, Json>)
    requires Properties(oa) == map[] == Properties(ob)
    ensures PropertyChanges(ctx, oa, ob, [], 0, Sorted(Properties(oa).Keys)) == []
    ensures AddedChanges(ctx, oa, ob, [], Sorted(Properties(ob).Keys)) == []
  {
  }

  /** A name that is required but not declared is not compared. */
  lemma ARequiredNameNotDeclared()
    ensures var (a, b) := (Object(EMPTY), Object(map["required" := Array([String("x")])]));
            && Missed(a, b, Object(map[]))
            && Covered(a, 0) && Matched(a, b) && !RequiredWellFormed(b.fields)
  {
    var ob := map["required" := Array([String("x")])];
    EmptyIsCovered();
    MatchedWithEmpty(ob);
    NotDeclared(ob);
    hide Missed, Covered, Matched, RequiredWellFormed;
    UndeclaredIsMissed();
  }

  lemma NotDeclared(o: map<string, Json>)
    requires o.Keys == {"required"} && o["required"] == Array([String("x")])
    ensures !RequiredWellFormed(o)
  {
    assert String("x") in o["required"].items && "x" !in Properties(o);
  }

  lemma UndeclaredIsMissed()
    ensures Missed(Object(EMPTY), Object(map["required" := Array([String("x")])]), Object(map[]))
  {
    hide NodeChanges, CompareChanges, Accepts, PropertyChanges, AddedChanges;
    var ob := map["required" := Array([String("x")])];
    NoKeywordsAccept(Avoiding(Object(ob)), Object(map[]));
    assert String("x") in ob["required"].items;
    assert !RequiredOk(ob, Object(map[]));
    Rejects(AsWritten, Object(ob), Object(map[]));
    NoPropertiesIsQuiet(Context(Input, EMPTY, ob), EMPTY, ob);
    QuietNode(Context(Input, EMPTY, ob), EMPTY, ob, [], 0, "required");
    QuietCompare(Input, EMPTY, ob, Tool, "", []);
  }

  /** A declared name that prints escaped is never found in `required`. */
  lemma ARequiredNameThatIsEscaped()
    ensures var p := Object(map["\"" := TRUE]);
            var a := Object(map["properties" := p]);
            var b := Object(map["properties" := p, "required" := Array([String("\"")])]);
            && Missed(a, b, Object(map[]))
            && Covered(a, 0) && Matched(a, b) && !Plain("\"") && !RequiredWellFormed(b.fields)
  {
    EscapedHypothesis(map["properties" := Object(map["\"" := TRUE])],
                      map["properties" := Object(map["\"" := TRUE]), "required" := Array([String("\"")])]);
    hide Missed, Covered, Matched, Plain, RequiredWellFormed;
    EscapedIsMissed();
  }

  lemma EscapedHypothesis(oa: map<string, Json>, ob: map<string, Json>)
    requires oa == map["properties" := Object(map["\"" := TRUE])]
    requires ob == map["properties" := Object(map["\"" := TRUE]), "required" := Array([String("\"")])]
    ensures Covered(Object(oa), 0) && Matched(Object(oa), Object(ob)) && !Plain("\"") && !RequiredWellFormed(ob)
  {
    assert Properties(oa) == Properties(ob) == map["\"" := TRUE];
    hide Covered, Matched, Plain, RequiredWellFormed, Properties;
    DeclaringIsCovered(oa);
    SamePropertiesMatch(oa, ob);
    WhatIsPlain("\"");
    NotPlain(ob, "\"");
  }

  lemma SamePropertiesMatch(oa: map<string, Json>, ob: map<string, Json>)
    requires oa.Keys == {"properties"} && ob.Keys == {"properties", "required"} && Properties(oa) == Properties(ob)
    requires forall n :: n in Properties(oa) ==> Properties(oa)[n] == TRUE
    ensures Matched(Object(oa), Object(ob))
  {
    hide Properties;
  }

  lemma NotPlain(o: map<string, Json>, name: string)
    requires "required" in o && o["required"] == Array([String(name)]) && !Plain(name)
    ensures !RequiredWellFormed(o)
  {
    hide Plain;
    assert String(name) in o["required"].items;
  }

  lemma EscapedIsMissed()
    ensures Missed(Object(map["properties" := Object(map["\"" := TRUE])]),
                   Object(map["properties" := Object(map["\"" := TRUE]), "required" := Array([String("\"")])]),
                   Object(map[]))
  {
    hide NodeChanges, CompareChanges, Accepts, PropertyChanges, AddedChanges, Sorted, Rest, PropertiesOk, Requires,
      RequiredOk;
    var p := map["\"" := TRUE];
    var oa := map["properties" := Object(p)];
    var ob := map["properties" := Object(p), "required" := Array([String("\"")])];
    EscapedAcceptance(oa, ob);
    EscapedIsNotFound(oa, ob);
    PropertiesAreSilent(Context(Input, oa, ob), oa, ob, [], 0, Sorted(p.Keys));
    QuietNode(Context(Input, oa, ob), oa, ob, [], 0, "required");
    QuietCompare(Input, oa, ob, Tool, "", []);
  }

  lemma EscapedAcceptance(oa: map<string, Json>, ob: map<string, Json>)
    requires oa == map["properties" := Object(map["\"" := TRUE])]
    requires ob == map["properties" := Object(map["\"" := TRUE]), "required" := Array([String("\"")])]
    ensures Accepts(FREE, Avoiding(Object(ob)), Object(oa), Object(map[]))
    ensures !Accepts(FREE, AsWritten, Object(ob), Object(map[]))
  {
    hide Accepts, Rest;
    assert Properties(oa) == Properties(ob);
    OnlySchemasAccept(Avoiding(Object(ob)), oa, Object(map[]));
    assert String("\"") in ob["required"].items;
    assert !RequiredOk(ob, Object(map[]));
    Rejects(AsWritten, Object(ob), Object(map[]));
  }

  lemma EscapedIsNotFound(oa: map<string, Json>, ob: map<string, Json>)
    requires "required" !in oa && "required" in ob && ob["required"] == Array([String("\"")])
    ensures !Requires(oa, "\"") && !Requires(ob, "\"")
  {
    assert "\""[1..] == [] && Escape("\"") == EscapeChar('"') + Escape([]) && |Escape("\"")| == 2;
    assert Get(ob, "required").value.items == [String("\"")];
    assert forall t :: t in SetOf(Get(ob, "required")) ==> t == Quoted(Escape("\""));
  }

  /** A list of schemas that changes length is not compared schema by schema. */
  lemma AShorterAllOf()
    ensures var (a, b) := (Object(map["allOf" := Array([TRUE, TRUE])]), Object(map["allOf" := Array([FALSE])]));
            Missed(a, b, Null) && Covered(a, 0) && Covered(b, 0) && !Matched(a, b)
  {
    AllOfIsCovered(map["allOf" := Array([TRUE, TRUE])]);
    AllOfIsCovered(map["allOf" := Array([FALSE])]);
    LengthsDiffer(map["allOf" := Array([TRUE, TRUE])], map["allOf" := Array([FALSE])]);
    hide Missed, Covered, Matched;
    ShorterIsMissed();
  }

  lemma AllOfIsCovered(o: map<string, Json>)
    requires o.Keys == {"allOf"} && o["allOf"].Array? && forall x :: x in o["allOf"].items ==> x.Bool?
    ensures Covered(Object(o), 0)
  {
    forall x | x in o["allOf"].items ensures Covered(x, 1) {
    }
    hide Covered;
    IsCovered(o, 0);
  }

  lemma LengthsDiffer(oa: map<string, Json>, ob: map<string, Json>)
    requires Branches(oa, "allOf").Some? && Branches(ob, "allOf").Some?
    requires |oa["allOf"].items| != |ob["allOf"].items|
    ensures !Matched(Object(oa), Object(ob))
  {
  }

  lemma ShorterIsMissed()
    ensures Missed(Object(map["allOf" := Array([TRUE, TRUE])]), Object(map["allOf" := Array([FALSE])]), Null)
  {
    hide NodeChanges, CompareChanges, Accepts, Rest;
    var oa := map["allOf" := Array([TRUE, TRUE])];
    var ob := map["allOf" := Array([FALSE])];
    BoolsAccept();
    OnlySchemasAccept(Avoiding(Object(ob)), oa, Null);
    assert !AllOk(FREE, AsWritten, Object(ob), Null) by {
      assert Branches(ob, "allOf").value[0] == FALSE;
    }
    Rejects(AsWritten, Object(ob), Null);
    AllOfIsQuiet(Context(Input, oa, ob), oa, ob);
    QuietNode(Context(Input, oa, ob), oa, ob, [], 0, "allOf");
    QuietCompare(Input, oa, ob, Tool, "", []);
  }

  lemma BoolsAccept()
    ensures forall extras, v :: Accepts(FREE, extras, TRUE, v) && !Accepts(FREE, extras, FALSE, v)
  {
  }

  lemma AllOfIsQuiet(ctx: Ctx, oa: map<string, Json>, ob: map<string, Json>)
    requires ctx.direction.Input?
    requires oa == map["allOf" := Array([TRUE, TRUE])] && ob == map["allOf" := Array([FALSE])]
    ensures QuietAt(ctx, oa, ob, [], 0, "allOf")
    ensures ChildrenUnreferenced(oa)
  {
    hide WalkChanges;
    assert "anyOf"[1] != "allOf"[1] && "oneOf"[0] != "allOf"[0];
  }

  /** A null alternative is read as a type of the schema around it. */
  lemma ANullAlternative()
    ensures var alternative := Object(map["type" := String("null")]);
            var a := Object(map["anyOf" := Array([alternative])]);
            var b := Object(map["anyOf" := Array([alternative]), "type" := String("string")]);
            && Missed(a, b, Null) && Matched(a, b)
            && HasNullAlternative(a.fields, "anyOf") && HasNullAlternative(b.fields, "anyOf")
  {
    var alternative := Object(map["type" := String("null")]);
    NullHypothesis(map["anyOf" := Array([alternative])],
                   map["anyOf" := Array([alternative]), "type" := String("string")], alternative);
    hide Missed, Matched, HasNullAlternative;
    NullIsMissed();
  }

  lemma NullHypothesis(oa: map<string, Json>, ob: map<string, Json>, alternative: Json)
    requires alternative == Object(map["type" := String("null")])
    requires oa == map["anyOf" := Array([alternative])]
    requires ob == map["anyOf" := Array([alternative]), "type" := String("string")]
    ensures Matched(Object(oa), Object(ob)) && HasNullAlternative(oa, "anyOf") && HasNullAlternative(ob, "anyOf")
  {
    assert alternative in oa["anyOf"].items && alternative in ob["anyOf"].items && IsNullAlternative(alternative);
    assert Matched(alternative, alternative);
  }

  lemma NullIsMissed()
    ensures Missed(Object(map["anyOf" := Array([Object(map["type" := String("null")])])]),
                   Object(map["anyOf" := Array([Object(map["type" := String("null")])]), "type" := String("string")]),
                   Null)
  {
    hide NodeChanges, CompareChanges, Accepts;
    var alternative := Object(map["type" := String("null")]);
    var oa := map["anyOf" := Array([alternative])];
    var ob := map["anyOf" := Array([alternative]), "type" := String("string")];
    NullAcceptance(oa, ob, alternative);
    NullTypes(oa, ob, alternative);
    NullIsQuiet(oa, ob);
  }

  lemma NullAcceptance(oa: map<string, Json>, ob: map<string, Json>, alternative: Json)
    requires alternative == Object(map["type" := String("null")])
    requires oa == map["anyOf" := Array([alternative])]
    requires ob == map["anyOf" := Array([alternative]), "type" := String("string")]
    ensures Accepts(FREE, Avoiding(Object(ob)), Object(oa), Null)
    ensures !Accepts(FREE, AsWritten, Object(ob), Null)
  {
    hide Accepts, Rest;
    NullIsAccepted(Avoiding(Object(ob)).BelowBranch("anyOf", 0));
    assert AnyOk(FREE, Avoiding(Object(ob)), Object(oa), Null) by {
      assert Branches(oa, "anyOf").value[0] == alternative;
    }
    OnlySchemasAccept(Avoiding(Object(ob)), oa, Null);
    assert !TypeOk(ob, Null);
    Rejects(AsWritten, Object(ob), Null);
  }

  lemma NullIsQuiet(oa: map<string, Json>, ob: map<string, Json>)
    requires TypesOf(oa) == {"null"} && TypesOf(ob) == {"null", "string"}
    requires oa.Keys == {"anyOf"} && ob.Keys == {"anyOf", "type"} && oa["anyOf"] == ob["anyOf"]
    requires oa["anyOf"] == Array([Object(map["type" := String("null")])])
    ensures NoBreaking(CompareChanges(Object(oa), Object(ob), Input, Tool, "", []))
  {
    hide NodeChanges, CompareChanges, TypesOf;
    QuietNode(Context(Input, oa, ob), oa, ob, [], 0, "type");
    QuietCompare(Input, oa, ob, Tool, "", []);
  }

  lemma NullIsAccepted(extras: Extras)
    requires !extras.Declared?
    ensures Accepts(FREE, extras, Object(map["type" := String("null")]), Null)
  {
    hide Rest;
    var o := map["type" := String("null")];
    assert KeywordsOk(FREE, o, Null);
  }

  lemma NullTypes(oa: map<string, Json>, ob: map<string, Json>, alternative: Json)
    requires alternative == Object(map["type" := String("null")])
    requires oa == map["anyOf" := Array([alternative])]
    requires ob == map["anyOf" := Array([alternative]), "type" := String("string")]
    ensures TypesOf(oa) == {"null"} && TypesOf(ob) == {"null", "string"}
  {
    assert alternative in oa["anyOf"].items && alternative in ob["anyOf"].items;
    assert IsNullAlternative(alternative);
  }

  /** A property the new schema newly declares: the value must avoid it. */
  lemma ANewlyDeclaredProperty()
    ensures var (a, b) := (Object(EMPTY), Object(map["properties" := Object(map["x" := FALSE])]));
            && NoBreaking(CompareChanges(a, b, Input, Tool, "", []))
            && Accepts(FREE, AsWritten, a, Object(map["x" := Null]))
            && !Accepts(FREE, AsWritten, b, Object(map["x" := Null]))
            && Covered(a, 0) && Covered(b, 0) && Matched(a, b)
  {
    EmptyIsCovered();
    MatchedWithEmpty(map["properties" := Object(map["x" := FALSE])]);
    DeclaringIsCovered(map["properties" := Object(map["x" := FALSE])]);
    hide CompareChanges, Accepts, Covered, Matched;
    NewlyDeclaredIsMissed();
  }

  lemma DeclaringIsCovered(o: map<string, Json>)
    requires o.Keys <= {"properties", "additionalProperties"}
    requires "properties" in o ==> o["properties"].Object?
    requires "additionalProperties" in o ==> o["additionalProperties"].Bool?
    requires forall n :: n in Properties(o) ==> Properties(o)[n].Bool?
    ensures Covered(Object(o), 0)
  {
    forall n | n in Properties(o) ensures Covered(Properties(o)[n], 1) {
    }
    hide Covered, Properties;
    IsCovered(o, 0);
  }

  lemma NewlyDeclaredIsMissed()
    ensures NoBreaking(CompareChanges(Object(EMPTY), Object(map["properties" := Object(map["x" := FALSE])]), Input,
                                      Tool, "", []))
    ensures Accepts(FREE, AsWritten, Object(EMPTY), Object(map["x" := Null]))
    ensures !Accepts(FREE, AsWritten, Object(map["properties" := Object(map["x" := FALSE])]), Object(map["x" := Null]))
  {
    hide NodeChanges, CompareChanges, Accepts, Rest;
    var ob := map["properties" := Object(map["x" := FALSE])];
    var v := map["x" := Null];
    NoKeywordsAccept(AsWritten, Object(v));
    BoolsAccept();
    assert !PropertiesOk(FREE, AsWritten, Object(ob), Object(v)) by {
      assert "x" in Properties(ob) && "x" in v;
    }
    Rejects(AsWritten, Object(ob), Object(v));
    hide PropertiesOk, KeywordsOk;
    AddedIsQuietAt(Input, EMPTY, ob);
  }

  /** Properties that are only added, and not required, break nothing. */
  lemma AddedIsQuietAt(direction: Direction, oa: map<string, Json>, ob: map<string, Json>)
    requires SameBut(oa, ob, "properties") && Properties(oa) == map[] && "required" !in ob && "$ref" !in oa
    requires "$ref" !in ob
    requires ChildrenUnreferenced(oa)
    ensures NoBreaking(CompareChanges(Object(oa), Object(ob), direction, Tool, "", []))
  {
    hide NodeChanges, CompareChanges, PropertyChanges, AddedChanges, ChildrenUnreferenced, Properties, SameBut;
    var ctx := Context(direction, oa, ob);
    AddedIsQuiet(ctx, oa, ob, Sorted(Properties(ob).Keys));
    NoNames(ctx, oa, ob);
    QuietNode(ctx, oa, ob, [], 0, "properties");
    QuietCompare(direction, oa, ob, Tool, "", []);
  }

  lemma NoNames(ctx: Ctx, oa: map<string, Json>, ob: map<string, Json>)
    requires Properties(oa) == map[]
    ensures PropertyChanges(ctx, oa, ob, [], 0, Sorted(Properties(oa).Keys)) == []
  {
  }

  lemma {:induction false} AddedIsQuiet(ctx: Ctx, oa: map<string, Json>, ob: map<string, Json>, names: seq<string>)
    requires "required" !in ob
    ensures NoBreaking(AddedChanges(ctx, oa, ob, [], names))
  {
    if names != [] {
      AddedIsQuiet(ctx, oa, ob, names[1..]);
    }
  }

  /** What `unevaluatedProperties: false` asks of a value where `properties` is the only keyword beside it
      that evaluates any: section 11.3 of JSON Schema Core 2020-12. */
  predicate AllEvaluated(o: map<string, Json>, v: Json) {
    Get(o, "unevaluatedProperties") == Some(FALSE) && v.Object? ==> forall n :: n in v.fields ==> n in Properties(o)
  }

  /** `unevaluatedProperties` looks at the keywords beside it: an optional property can go from `properties`
      without a breaking change, and then is turned away. The keywords without a rule are the same on both
      sides, so nothing fixed by their values tells the two apart. */
  lemma AnUnevaluatedProperty()
    ensures var p := map["x" := TRUE, "y" := TRUE];
            var oa := map["properties" := Object(p), "unevaluatedProperties" := FALSE];
            var ob := map["properties" := Object(p - {"y"}), "unevaluatedProperties" := FALSE];
            var (a, b, v) := (Object(oa), Object(ob), Object(map["y" := Null]));
            && NoBreaking(CompareChanges(a, b, Input, Tool, "", []))
            && Accepts(FREE, Avoiding(b), a, v) && AllEvaluated(oa, v) && !AllEvaluated(ob, v)
            && Rest(oa) == Rest(ob) && Matched(a, b) && LooksBeside(oa) && LooksBeside(ob)
  {
    var p := map["x" := TRUE, "y" := TRUE];
    var oa := map["properties" := Object(p), "unevaluatedProperties" := FALSE];
    var ob := map["properties" := Object(p - {"y"}), "unevaluatedProperties" := FALSE];
    hide CompareChanges, Accepts, Rest, Matched;
    assert "y" in map["y" := Null] && "y" !in Properties(ob);
    UnevaluatedAccepts(p, oa, Object(ob), map["y" := Null]);
    ADroppedPropertyIsQuiet(p, oa, ob);
    UnevaluatedRest(oa, ob);
    UnevaluatedMatch(p, oa, ob);
  }

  lemma UnevaluatedRest(oa: map<string, Json>, ob: map<string, Json>)
    requires oa.Keys == {"properties", "unevaluatedProperties"} == ob.Keys
    requires oa["unevaluatedProperties"] == ob["unevaluatedProperties"]
    ensures Rest(oa) == Rest(ob)
  {
    ConsideredIsHandled("properties");
    hide Keywords.Handled;
  }

  lemma UnevaluatedMatch(p: map<string, Json>, oa: map<string, Json>, ob: map<string, Json>)
    requires oa.Keys == {"properties", "unevaluatedProperties"} == ob.Keys
    requires oa["properties"] == Object(p) && ob["properties"] == Object(p - {"y"})
    requires forall n :: n in p ==> p[n] == TRUE
    ensures Matched(Object(oa), Object(ob))
  {
    assert Matched(TRUE, TRUE);
  }

  lemma UnevaluatedAccepts(p: map<string, Json>, o: map<string, Json>, other: Json, v: map<string, Json>)
    requires o == map["properties" := Object(p), "unevaluatedProperties" := FALSE]
    requires v.Keys <= p.Keys && forall n :: n in p ==> p[n] == TRUE
    ensures Accepts(FREE, Avoiding(other), Object(o), Object(v))
  {
    hide Rest, Accepts;
    var extras := Avoiding(other);
    assert Properties(o) == p;
    BoolsAccept();
    assert NamesOk(extras, o, Object(v)) && ExtrasOk(FREE, extras, Object(o), Object(v));
    assert PropertiesOk(FREE, extras, Object(o), Object(v));
    PropertiesAreEnough(extras, o, Object(v));
  }

  /** Where the other keywords with a rule are absent. */
  lemma PropertiesAreEnough(extras: Extras, o: map<string, Json>, v: Json)
    requires o.Keys == {"properties", "unevaluatedProperties"} && v.Object?
    requires NamesOk(extras, o, v) && ExtrasOk(FREE, extras, Object(o), v) && PropertiesOk(FREE, extras, Object(o), v)
    ensures Accepts(FREE, extras, Object(o), v)
  {
    hide Rest, NamesOk, ExtrasOk, PropertiesOk;
    assert KeywordsOk(FREE, o, v);
    assert Branches(o, "anyOf").None? && Branches(o, "allOf").None? && Branches(o, "oneOf").None?;
    hide KeywordsOk, Branches;
  }

  lemma ADroppedPropertyIsQuiet(p: map<string, Json>, oa: map<string, Json>, ob: map<string, Json>)
    requires forall n :: n in p ==> p[n] == TRUE
    requires oa.Keys == {"properties", "unevaluatedProperties"} == ob.Keys
    requires oa["properties"] == Object(p) && ob["properties"] == Object(p - {"y"})
    requires oa["unevaluatedProperties"] == ob["unevaluatedProperties"]
    ensures NoBreaking(CompareChanges(Object(oa), Object(ob), Input, Tool, "", []))
  {
    hide NodeChanges, CompareChanges, PropertyChanges, AddedChanges, Sorted, ChildrenUnreferenced;
    hide QuietAt, SameBut, Forbids;
    UnevaluatedChildren(oa);
    OnlyPropertiesDiffer(oa, ob);
    DroppedNames(Context(Input, oa, ob), p, oa, ob);
    hide Properties;
    QuietDeclaring(oa, ob);
  }

  lemma QuietDeclaring(oa: map<string, Json>, ob: map<string, Json>)
    requires SameBut(oa, ob, "properties") && ChildrenUnreferenced(oa) && "$ref" !in oa && "$ref" !in ob
    requires NoBreaking(PropertyChanges(Context(Input, oa, ob), oa, ob, [], 0, Sorted(Properties(oa).Keys)))
    requires NoBreaking(AddedChanges(Context(Input, oa, ob), oa, ob, [], Sorted(Properties(ob).Keys)))
    ensures NoBreaking(CompareChanges(Object(oa), Object(ob), Input, Tool, "", []))
  {
    hide NodeChanges, CompareChanges, PropertyChanges, AddedChanges, Sorted, Properties, ChildrenUnreferenced;
    hide QuietAt, SameBut;
    DeclaringIsQuietAt(Context(Input, oa, ob), oa, ob);
    QuietNode(Context(Input, oa, ob), oa, ob, [], 0, "properties");
    QuietCompare(Input, oa, ob, Tool, "", []);
  }

  lemma OnlyPropertiesDiffer(oa: map<string, Json>, ob: map<string, Json>)
    requires oa.Keys == {"properties", "unevaluatedProperties"} == ob.Keys
    requires oa["unevaluatedProperties"] == ob["unevaluatedProperties"]
    ensures SameBut(oa, ob, "properties") && !Forbids(ob) && "required" !in oa && "required" !in ob
  {
  }

  lemma DroppedNames(ctx: Ctx, p: map<string, Json>, oa: map<string, Json>, ob: map<string, Json>)
    requires ctx.direction.Input? && !Forbids(ob) && "required" !in oa && "required" !in ob
    requires Properties(oa) == p && Properties(ob) == p - {"y"} && forall n :: n in p ==> p[n] == TRUE
    ensures NoBreaking(PropertyChanges(ctx, oa, ob, [], 0, Sorted(Properties(oa).Keys)))
    ensures AddedChanges(ctx, oa, ob, [], Sorted(Properties(ob).Keys)) == []
  {
    hide PropertyChanges, AddedChanges, Sorted, Properties, Forbids;
    DroppedAreQuiet(ctx, oa, ob, Sorted(p.Keys));
    NothingIsAdded(ctx, oa, ob, Sorted((p - {"y"}).Keys));
  }

  lemma DeclaringIsQuietAt(ctx: Ctx, oa: map<string, Json>, ob: map<string, Json>)
    ensures QuietAt(ctx, oa, ob, [], 0, "properties")
  {
    D.BranchKeysDiffer();
    hide BranchKeyChange, TypeChanges, EnumChanges, AdditionalChanges, ItemsChanges;
  }

  lemma UnevaluatedChildren(o: map<string, Json>)
    requires o.Keys == {"properties", "unevaluatedProperties"}
    requires forall n :: n in Properties(o) ==> Properties(o)[n] == TRUE
    ensures ChildrenUnreferenced(o)
  {
    D.BranchKeysDiffer();
    assert forall key :: key in KEYWORDS.branches ==> key !in o;
  }

  lemma {:induction false} DroppedAreQuiet(ctx: Ctx, oa: map<string, Json>, ob: map<string, Json>, names: seq<string>)
    requires ctx.direction.Input? && !Forbids(ob) && "required" !in oa && "required" !in ob
    requires forall n :: n in names ==> n in Properties(oa) && Properties(oa)[n] == TRUE
    requires forall n :: n in Properties(ob) ==> Properties(ob)[n] == TRUE
    ensures NoBreaking(PropertyChanges(ctx, oa, ob, [], 0, names))
  {
    hide WalkChanges, Properties, Forbids;
    if names != [] {
      DroppedAreQuiet(ctx, oa, ob, names[1..]);
      SameIsSilent(ctx, TRUE, [] + [Property(names[0])], 1);
      assert NoBreaking(PropertyChange(ctx, oa, ob, [], 0, names[0]));
    }
  }

  lemma {:induction false} NothingIsAdded(ctx: Ctx, oa: map<string, Json>, ob: map<string, Json>, names: seq<string>)
    requires forall n :: n in names ==> n in Properties(oa)
    ensures AddedChanges(ctx, oa, ob, [], names) == []
  {
    if names != [] {
      NothingIsAdded(ctx, oa, ob, names[1..]);
    }
  }

  /** Output: a client that turns away properties it does not know is broken by a new one. */
  lemma ANewOutputProperty()
    ensures var strict := Object(map["additionalProperties" := FALSE]);
            var more := Object(map["additionalProperties" := FALSE, "properties" := Object(map["x" := TRUE])]);
            && NoBreaking(CompareChanges(strict, more, Output, Tool, "", []))
            && Accepts(FREE, AsWritten, more, Object(map["x" := Null]))
            && !Accepts(FREE, AsWritten, strict, Object(map["x" := Null]))
            && Covered(strict, 0) && Covered(more, 0) && Matched(strict, more)
  {
    DeclaringIsCovered(map["additionalProperties" := FALSE]);
    DeclaringIsCovered(map["additionalProperties" := FALSE, "properties" := Object(map["x" := TRUE])]);
    DeclaringIsMatched(map["additionalProperties" := FALSE],
                       map["additionalProperties" := FALSE, "properties" := Object(map["x" := TRUE])]);
    hide CompareChanges, Accepts, Covered, Matched;
    NewOutputIsMissed();
  }

  lemma DeclaringIsMatched(oa: map<string, Json>, ob: map<string, Json>)
    requires oa.Keys == {"additionalProperties"} && ob.Keys == {"additionalProperties", "properties"}
    ensures Matched(Object(oa), Object(ob))
  {
  }

  lemma NewOutputIsMissed()
    ensures var strict := Object(map["additionalProperties" := FALSE]);
            var more := Object(map["additionalProperties" := FALSE, "properties" := Object(map["x" := TRUE])]);
            && NoBreaking(CompareChanges(strict, more, Output, Tool, "", []))
            && Accepts(FREE, AsWritten, more, Object(map["x" := Null]))
            && !Accepts(FREE, AsWritten, strict, Object(map["x" := Null]))
  {
    hide NodeChanges, CompareChanges, Accepts, Rest;
    var oa := map["additionalProperties" := FALSE];
    var ob := map["additionalProperties" := FALSE, "properties" := Object(map["x" := TRUE])];
    var v := map["x" := Null];
    ClosedAccepts(ob, Object(v));
    BoolsAccept();
    assert !ExtrasOk(FREE, AsWritten, Object(oa), Object(v)) by {
      assert "x" in v && IsExtra(FREE, oa, "x");
    }
    Rejects(AsWritten, Object(oa), Object(v));
    hide ExtrasOk, KeywordsOk;
    AddedIsQuietAt(Output, oa, ob);
  }

  lemma ClosedAccepts(o: map<string, Json>, v: Json)
    requires o == map["additionalProperties" := FALSE, "properties" := Object(map["x" := TRUE])]
    requires v == Object(map["x" := Null])
    ensures Accepts(FREE, AsWritten, Object(o), v)
  {
    hide Rest;
    assert KeywordsOk(FREE, o, v);
    BoolsAccept();
    assert ExtrasOk(FREE, AsWritten, Object(o), v);
    assert PropertiesOk(FREE, AsWritten, Object(o), v);
    assert ItemsOk(FREE, AsWritten, Object(o), v) && AnyOk(FREE, AsWritten, Object(o), v);
    assert AllOk(FREE, AsWritten, Object(o), v) && OneOk(FREE, Object(o), v);
  }

  /** `oneOf`: accepting more in one schema can leave a value accepted by two. */
  lemma AOneOfThatLoosens()
    ensures var a := Object(map["oneOf" := Array([TRUE, Object(map["enum" := Array([Null])])])]);
            var b := Object(map["oneOf" := Array([TRUE, Object(map["enum" := Array([Null, TRUE])])])]);
            Missed(a, b, TRUE) && Covered(a, 0) && Covered(b, 0) && !Matched(a, b)
  {
    var (few, more) := (map["enum" := Array([Null])], map["enum" := Array([Null, TRUE])]);
    OneOfIsCovered(few, [Null]);
    OneOfIsCovered(more, [Null, TRUE]);
    assert few["enum"].items != more["enum"].items by {
      assert |few["enum"].items| != |more["enum"].items|;
    }
    OneOfsDiffer(few, more);
    hide Missed, Covered, Matched;
    LoosenedIsMissed();
  }

  lemma EnumRefersToNothing(key: string)
    requires key != "" && key[0] == 'e'
    ensures !Refers(key)
  {
    assert "$ref"[0] == "$dynamicRef"[0] == "$recursiveRef"[0] == '$';
  }

  lemma OneOfIsCovered(alternative: map<string, Json>, values: seq<Json>)
    requires alternative.Keys == {"enum"} && alternative["enum"] == Array(values)
    requires forall v :: v in values ==> v.Null? || v.Bool?
    ensures Covered(Object(map["oneOf" := Array([TRUE, Object(alternative)])]), 0)
  {
    var o := map["oneOf" := Array([TRUE, Object(alternative)])];
    EnumRefersToNothing("enum");
    assert NoReferences(Array(values));
    assert NoReferences(TRUE) && NoReferences(Object(alternative));
    assert o["oneOf"].items == [TRUE, Object(alternative)];
    hide Covered, NoReferences;
    assert !HasNullAlternative(o, "oneOf");
    IsCovered(o, 0);
  }

  lemma OneOfsDiffer(few: map<string, Json>, more: map<string, Json>)
    requires few != more
    ensures !Matched(Object(map["oneOf" := Array([TRUE, Object(few)])]),
                     Object(map["oneOf" := Array([TRUE, Object(more)])]))
  {
    assert [TRUE, Object(few)][1] != [TRUE, Object(more)][1];
  }

  lemma LoosenedIsMissed()
    ensures Missed(Object(map["oneOf" := Array([TRUE, Object(map["enum" := Array([Null])])])]),
                   Object(map["oneOf" := Array([TRUE, Object(map["enum" := Array([Null, TRUE])])])]), TRUE)
  {
    hide NodeChanges, CompareChanges, Accepts, Rest;
    var (few, more) := (map["enum" := Array([Null])], map["enum" := Array([Null, TRUE])]);
    var oa := map["oneOf" := Array([TRUE, Object(few)])];
    var ob := map["oneOf" := Array([TRUE, Object(more)])];
    var ctx := Context(Input, oa, ob);
    OneOfAcceptance(oa, ob, few, more);
    EnumGrows(ctx, few, more, [Branch("oneOf", 1)], 1);
    OneOfIsQuiet(ctx, oa, ob, few, more);
    QuietNode(ctx, oa, ob, [], 0, "oneOf");
    QuietCompare(Input, oa, ob, Tool, "", []);
  }

  lemma OneOfAcceptance(oa: map<string, Json>, ob: map<string, Json>, few: map<string, Json>, more: map<string, Json>)
    requires few == map["enum" := Array([Null])] && more == map["enum" := Array([Null, TRUE])]
    requires oa == map["oneOf" := Array([TRUE, Object(few)])] && ob == map["oneOf" := Array([TRUE, Object(more)])]
    ensures Accepts(FREE, Avoiding(Object(ob)), Object(oa), TRUE)
    ensures !Accepts(FREE, AsWritten, Object(ob), TRUE)
  {
    hide Accepts, Rest, OneOk;
    BoolsAccept();
    assert !EnumOk(few, TRUE);
    Rejects(AsWritten, Object(few), TRUE);
    OneOfTwo(FREE, oa, TRUE, Object(few), TRUE);
    OnlySchemasAccept(Avoiding(Object(ob)), oa, TRUE);
    EnumAccepts(more, TRUE);
    OneOfTwo(FREE, ob, TRUE, Object(more), TRUE);
    Rejects(AsWritten, Object(ob), TRUE);
  }

  lemma OneOfTwo(env: Env, o: map<string, Json>, x: Json, y: Json, v: Json)
    requires Branches(o, "oneOf") == Some([x, y])
    requires Accepts(env, AsWritten, x, v)
    ensures OneOk(env, Object(o), v) <==> !Accepts(env, AsWritten, y, v)
  {
    hide Accepts, Branches;
    var l := Branches(o, "oneOf").value;
    assert l[0] == x && l[1] == y && |l| == 2;
    if Accepts(env, AsWritten, y, v) {
      forall i | 0 <= i < |l| ensures !OnlyBranch(env, Object(o), v, i) {
        assert Accepts(env, AsWritten, l[1 - i], v);
      }
    } else {
      assert OnlyBranch(env, Object(o), v, 0);
    }
  }

  lemma EnumAccepts(o: map<string, Json>, v: Json)
    requires o.Keys == {"enum"} && EnumOk(o, v)
    ensures Accepts(FREE, AsWritten, Object(o), v)
  {
    hide Rest, EnumOk;
    assert KeywordsOk(FREE, o, v);
  }

  lemma EnumGrows(ctx: Ctx, few: map<string, Json>, more: map<string, Json>, path: seq<Step>, depth: nat)
    requires ctx.direction.Input? && depth <= MAX_DEPTH
    requires few == map["enum" := Array([Null])] && more == map["enum" := Array([Null, TRUE])]
    ensures NoBreaking(WalkChanges(ctx, Object(few), Object(more), path, depth))
  {
    hide NodeChanges;
    assert SetOf(Get(few, "enum")) - SetOf(Get(more, "enum")) == {} by {
      assert Null in more["enum"].items;
    }
    QuietNode(ctx, few, more, path, depth, "enum");
    assert Resolved(ctx.rootA, Object(few), HopsAt(depth)) == Object(few);
    assert Resolved(ctx.rootB, Object(more), HopsAt(depth)) == Object(more);
  }

  lemma OneOfIsQuiet(ctx: Ctx, oa: map<string, Json>, ob: map<string, Json>, few: map<string, Json>,
                     more: map<string, Json>)
    requires oa == map["oneOf" := Array([TRUE, Object(few)])] && ob == map["oneOf" := Array([TRUE, Object(more)])]
    requires few.Keys == {"enum"} == more.Keys
    requires NoBreaking(WalkChanges(ctx, Object(few), Object(more), [Branch("oneOf", 1)], 1))
    ensures QuietAt(ctx, oa, ob, [], 0, "oneOf")
    ensures ChildrenUnreferenced(oa)
  {
    hide WalkChanges;
    assert "oneOf"[0] != "anyOf"[0] && "oneOf"[0] != "allOf"[0] && |"enum"| != |"type"| + 1 && "enum"[0] != "type"[0];
    assert [] + [Branch("oneOf", 1)] == [Branch("oneOf", 1)];
    SameIsSilent(ctx, TRUE, [] + [Branch("oneOf", 0)], 1);
    OneOfWalk(ctx, oa["oneOf"].items, ob["oneOf"].items);
    assert !HasNullAlternative(oa, "oneOf") && !HasNullAlternative(ob, "oneOf") && TypesOf(oa) == {} == TypesOf(ob);
  }

  lemma OneOfWalk(ctx: Ctx, la: seq<Json>, lb: seq<Json>)
    requires |la| == |lb| == 2
    requires WalkChanges(ctx, la[0], lb[0], [] + [Branch("oneOf", 0)], 1) == []
    requires NoBreaking(WalkChanges(ctx, la[1], lb[1], [] + [Branch("oneOf", 1)], 1))
    ensures NoBreaking(BranchChanges(ctx, la, lb, "oneOf", [], 0, 0))
  {
    hide WalkChanges;
    assert BranchChanges(ctx, la, lb, "oneOf", [], 0, 2) == [];
    assert BranchChanges(ctx, la, lb, "oneOf", [], 0, 1)
         == WalkChanges(ctx, la[1], lb[1], [] + [Branch("oneOf", 1)], 1);
  }

  /** Two schemas with the same text are not looked into, so a definition they refer to can change
      unseen: a use with a breaking change that is not reported. */
  lemma AReferenceUnderEqualText()
    ensures var inner := Object(map["$ref" := String("#/$defs/P")]);
            var a := Object(map["$defs" := Object(map["P" := TRUE]), "items" := Object(map["items" := inner])]);
            var b := Object(map["$defs" := Object(map["P" := FALSE]), "items" := Object(map["items" := inner])]);
            var (ctx, use) := (Ctx(a, b, Input, Tool, ""), [Key("items"), Key("items")]);
            && NoBreaking(CompareChanges(a, b, Input, Tool, "", []))
            && IsUse(ctx, a, b, use, 0) && !TextsDifferAbove(ctx, a, b, use, 0)
            && At(ctx, Breaking, [] + use) in UseChanges(ctx, a, b, [], use, 0)
            && Matched(a, b) && !NodeWellFormed(inner.fields)
  {
    var inner := map["$ref" := String("#/$defs/P")];
    SameItemsMatch(map["$defs" := Object(map["P" := TRUE]), "items" := Object(map["items" := Object(inner)])],
                   map["$defs" := Object(map["P" := FALSE]), "items" := Object(map["items" := Object(inner)])],
                   Object(inner));
    hide CompareChanges, IsUse, TextsDifferAbove, UseChanges, Matched;
    ReferenceIsMissed();
  }

  lemma SameItemsMatch(oa: map<string, Json>, ob: map<string, Json>, inner: Json)
    requires oa.Keys == {"$defs", "items"} == ob.Keys && oa["items"] == ob["items"] == Object(map["items" := inner])
    requires inner.Object? && inner.fields.Keys == {"$ref"}
    ensures Matched(Object(oa), Object(ob))
  {
    assert Matched(inner, inner);
    assert Matched(oa["items"], ob["items"]);
  }

  lemma ReferenceIsMissed()
    ensures var inner := Object(map["$ref" := String("#/$defs/P")]);
            var a := Object(map["$defs" := Object(map["P" := TRUE]), "items" := Object(map["items" := inner])]);
            var b := Object(map["$defs" := Object(map["P" := FALSE]), "items" := Object(map["items" := inner])]);
            var (ctx, use) := (Ctx(a, b, Input, Tool, ""), [Key("items"), Key("items")]);
            && NoBreaking(CompareChanges(a, b, Input, Tool, "", []))
            && IsUse(ctx, a, b, use, 0) && !TextsDifferAbove(ctx, a, b, use, 0)
            && At(ctx, Breaking, [] + use) in UseChanges(ctx, a, b, [], use, 0)
  {
    hide NodeChanges, CompareChanges, Resolved, Hop, Lookup, IsUse, TextsDifferAbove, UseChanges;
    var inner := map["$ref" := String("#/$defs/P")];
    var child := map["items" := Object(inner)];
    var oa := map["$defs" := Object(map["P" := TRUE]), "items" := Object(child)];
    var ob := map["$defs" := Object(map["P" := FALSE]), "items" := Object(child)];
    UseOfP(oa, ob, child, inner);
    QuietNode(Context(Input, oa, ob), oa, ob, [], 0, "$defs");
    QuietCompare(Input, oa, ob, Tool, "", []);
  }

  lemma UseOfP(oa: map<string, Json>, ob: map<string, Json>, child: map<string, Json>, inner: map<string, Json>)
    requires inner == map["$ref" := String("#/$defs/P")] && child == map["items" := Object(inner)]
    requires oa == map["$defs" := Object(map["P" := TRUE]), "items" := Object(child)]
    requires ob == map["$defs" := Object(map["P" := FALSE]), "items" := Object(child)]
    ensures var (ctx, use) := (Context(Input, oa, ob), [Key("items"), Key("items")]);
            && IsUse(ctx, Object(oa), Object(ob), use, 0) && !TextsDifferAbove(ctx, Object(oa), Object(ob), use, 0)
            && At(ctx, Breaking, [] + use) in UseChanges(ctx, Object(oa), Object(ob), [], use, 0)
  {
    var (ctx, use) := (Context(Input, oa, ob), [Key("items"), Key("items")]);
    DefinitionIsFound(oa, TRUE, inner);
    DefinitionIsFound(ob, FALSE, inner);
    hide NodeChanges, Hop, Properties, Lookup;
    OwnText(Object(oa), Object(oa), 0);
    OwnText(Object(ob), Object(ob), 0);
    OwnText(Object(oa), Object(child), 1);
    OwnText(Object(ob), Object(child), 1);
    hide Resolved;
    assert use[1..] == [Key("items")] && use[1..][1..] == [];
    assert IsUse(ctx, Object(inner), Object(inner), [], 2);
    assert IsUse(ctx, Object(child), Object(child), use[1..], 1);
    assert UseAt(ctx, Object(child), Object(child), use[1..], 1) == (Object(inner), Object(inner));
    assert UseAt(ctx, Object(oa), Object(ob), use, 0) == (Object(inner), Object(inner));
    assert WalkChanges(ctx, Object(inner), Object(inner), [] + use, 2) == [At(ctx, Breaking, [] + use)];
  }

  lemma OwnText(root: Json, s: Json, depth: nat)
    requires Unreferenced(s)
    ensures Resolved(root, s, HopsAt(depth)) == s
  {
  }

  lemma DefinitionIsFound(o: map<string, Json>, p: Json, inner: map<string, Json>)
    requires "$defs" in o && o["$defs"] == Object(map["P" := p]) && p.Bool?
    requires inner == map["$ref" := String("#/$defs/P")]
    ensures Resolved(Object(o), Object(inner), HopsAt(2)) == p
  {
    hide Follow, Split;
    assert "#/$defs/P"[1..] == "/$defs/P";
    PointerSplits();
    assert Follow(Object(o), ["$defs", "P"]) == Some(p) by {
      FollowKey(Object(o), "$defs", ["P"]);
      FollowKey(o["$defs"], "P", []);
      FollowEnd(p);
      assert ["$defs"] + ["P"] == ["$defs", "P"] && ["P"] + [] == ["P"];
    }
    assert Lookup(Object(o), "/$defs/P") == Some(p);
    assert Hop(Object(o), Object(inner)) == Some(p);
    assert Hop(Object(o), p) == None;
    assert Resolved(Object(o), p, HopsAt(2) - 1) == p;
  }

  lemma PointerSplits()
    ensures Split("/$defs/P", '/')[1..] == ["$defs", "P"]
  {
    SplitWord("$defs", "P", '/');
    SplitLast("P", '/');
    assert "/$defs/P"[1..] == "$defs" + ['/'] + "P";
  }

  lemma FollowKey(target: Json, token: string, more: seq<string>)
    requires target.Object? && token in target.fields && '~' !in token
    ensures Follow(target, [token] + more) == Follow(target.fields[token], more)
  {
    NoTildes(token, '1', '/');
    NoTildes(token, '0', '~');
    assert ([token] + more)[1..] == more;
  }

  lemma FollowEnd(target: Json)
    ensures Follow(target, []) == Some(target)
  {
  }

  lemma {:induction false} SplitLast(word: string, sep: char)
    requires sep !in word
    ensures Split(word, sep) == [word]
  {
    if word != [] {
      SplitLast(word[1..], sep);
      assert word == [word[0]] + word[1..];
    }
  }

  lemma {:induction false} SplitWord(word: string, more: string, sep: char)
    requires sep !in word
    ensures Split(word + [sep] + more, sep) == [word] + Split(more, sep)
  {
    if word == [] {
      assert ([] + [sep] + more)[1..] == more;
    } else {
      SplitWord(word[1..], more, sep);
      assert (word + [sep] + more)[1..] == word[1..] + [sep] + more;
      assert word == [word[0]] + word[1..];
    }
  }

  lemma {:induction false} NoTildes(s: string, c: char, r: char)
    requires '~' !in s
    ensures ReplaceTilde(s, c, r) == s
  {
    if |s| >= 2 {
      NoTildes(s[1..], c, r);
      assert s == [s[0]] + s[1..];
    }
  }

  // --- Nesting ---

  function Nest(n: nat, leaf: Json): Json {
    if n == 0 then leaf else Object(map["items" := Nest(n - 1, leaf)])
  }

  function Wrap(n: nat): Json {
    if n == 0 then Null else Array([Wrap(n - 1)])
  }

  lemma {:induction false} NestIsQuiet(ctx: Ctx, n: nat, path: seq<Step>, depth: nat)
    requires n + depth == MAX_DEPTH + 1
    ensures NoBreaking(WalkChanges(ctx, Nest(n, TRUE), Nest(n, FALSE), path, depth))
    decreases n
  {
    hide NodeChanges;
    if n > 0 {
      var (a, b) := (Nest(n, TRUE), Nest(n, FALSE));
      NestIsQuiet(ctx, n - 1, path + [Key("items")], depth + 1);
      assert Unreferenced(Nest(n - 1, TRUE));
      NestNode(ctx, a.fields, b.fields, path, depth);
      assert Resolved(ctx.rootA, a, HopsAt(depth)) == a && Resolved(ctx.rootB, b, HopsAt(depth)) == b;
    }
  }

  lemma NestNode(ctx: Ctx, oa: map<string, Json>, ob: map<string, Json>, path: seq<Step>, depth: nat)
    requires depth <= MAX_DEPTH
    requires oa.Keys == {"items"} == ob.Keys && Unreferenced(oa["items"])
    requires NoBreaking(WalkChanges(ctx, oa["items"], ob["items"], path + [Key("items")], depth + 1))
    ensures NoBreaking(NodeChanges(ctx, KEYWORDS, oa, ob, path, depth))
  {
    hide NodeChanges, WalkChanges;
    assert "items" !in KEYWORDS.branches by { D.BranchKeysDiffer(); }
    NoBranches(oa);
    QuietNode(ctx, oa, ob, path, depth, "items");
  }

  lemma NoBranches(o: map<string, Json>)
    requires o.Keys == {"items"}
    ensures forall key :: key in KEYWORDS.branches ==> Branches(o, key) == None
  {
    D.BranchKeysDiffer();
  }

  lemma {:induction false} WrapIsAccepted(n: nat, extras: Extras)
    ensures Accepts(FREE, extras, Nest(n, TRUE), Wrap(n))
    ensures !Accepts(FREE, extras, Nest(n, FALSE), Wrap(n))
  {
    hide Rest;
    if n > 0 {
      WrapIsAccepted(n - 1, extras.BelowItems());
      assert Wrap(n).items[0] == Wrap(n - 1);
      NestAccepts(n, extras);
    }
  }

  lemma ItemsAccept(extras: Extras, o: map<string, Json>, w: Json)
    requires o.Keys == {"items"}
    ensures Accepts(FREE, extras, Object(o), Array([w])) <==> Accepts(FREE, extras.BelowItems(), o["items"], w)
  {
    hide Rest;
    var v := Array([w]);
    assert v.items[0] == w;
    assert KeywordsOk(FREE, o, v);
    assert ItemsOk(FREE, extras, Object(o), v) <==> Accepts(FREE, extras.BelowItems(), o["items"], w);
    assert ExtrasOk(FREE, extras, Object(o), v) && PropertiesOk(FREE, extras, Object(o), v);
    assert AnyOk(FREE, extras, Object(o), v);
    assert AllOk(FREE, extras, Object(o), v) && OneOk(FREE, Object(o), v) && NamesOk(extras, o, v);
  }

  lemma NestAccepts(n: nat, extras: Extras)
    requires n > 0
    requires Accepts(FREE, extras.BelowItems(), Nest(n - 1, TRUE), Wrap(n - 1))
    requires !Accepts(FREE, extras.BelowItems(), Nest(n - 1, FALSE), Wrap(n - 1))
    ensures Accepts(FREE, extras, Nest(n, TRUE), Wrap(n))
    ensures !Accepts(FREE, extras, Nest(n, FALSE), Wrap(n))
  {
    ItemsAccept(extras, map["items" := Nest(n - 1, TRUE)], Wrap(n - 1));
    ItemsAccept(extras, map["items" := Nest(n - 1, FALSE)], Wrap(n - 1));
  }

  /** Nesting is all that is wrong with it: one level less is covered. */
  lemma {:induction false} NestHypothesis(n: nat, depth: nat)
    ensures Matched(Nest(n, TRUE), Nest(n, FALSE))
    ensures Covered(Nest(n, TRUE), depth) <==> n + depth <= MAX_DEPTH
    ensures Covered(Nest(n, FALSE), depth) <==> n + depth <= MAX_DEPTH
  {
    hide Covered, Matched;
    if n == 0 {
      BoolHypothesis(depth);
    } else {
      NestHypothesis(n - 1, depth + 1);
      OneMoreIsMatched(Nest(n - 1, TRUE), Nest(n - 1, FALSE));
      OneMoreIsCovered(Nest(n - 1, TRUE), depth);
      OneMoreIsCovered(Nest(n - 1, FALSE), depth);
    }
  }

  lemma BoolHypothesis(depth: nat)
    ensures Matched(TRUE, FALSE)
    ensures Covered(TRUE, depth) <==> depth <= MAX_DEPTH
    ensures Covered(FALSE, depth) <==> depth <= MAX_DEPTH
  {
  }

  lemma OneMoreIsMatched(a: Json, b: Json)
    requires Matched(a, b)
    ensures Matched(Object(map["items" := a]), Object(map["items" := b]))
  {
  }

  lemma OneMoreIsCovered(s: Json, depth: nat)
    ensures Covered(Object(map["items" := s]), depth) <==> depth <= MAX_DEPTH && Covered(s, depth + 1)
  {
    var o := map["items" := s];
    hide Covered;
    if depth <= MAX_DEPTH && Covered(s, depth + 1) {
      IsCovered(o, depth);
    }
    if Covered(Object(o), depth) {
      ItemsAreCovered(o, depth);
    }
  }

  lemma ItemsAreCovered(o: map<string, Json>, depth: nat)
    requires Covered(Object(o), depth) && "items" in o
    ensures depth <= MAX_DEPTH && Covered(o["items"], depth + 1)
  {
    hide NodeWellFormed, Closed, Properties, Branches;
  }

  /** A change deeper than the walk goes. */
  lemma AChangeTooDeep()
    ensures var (a, b) := (Nest(MAX_DEPTH + 1, TRUE), Nest(MAX_DEPTH + 1, FALSE));
            Missed(a, b, Wrap(MAX_DEPTH + 1)) && Matched(a, b) && !Covered(a, 0) && !Covered(b, 0)
  {
    hide Missed, Covered, Matched;
    NestHypothesis(MAX_DEPTH + 1, 0);
    DeepIsMissed();
  }

  lemma DeepIsMissed()
    ensures Missed(Nest(MAX_DEPTH + 1, TRUE), Nest(MAX_DEPTH + 1, FALSE), Wrap(MAX_DEPTH + 1))
  {
    hide WalkChanges, Accepts;
    var (a, b) := (Nest(MAX_DEPTH + 1, TRUE), Nest(MAX_DEPTH + 1, FALSE));
    NestIsQuiet(Ctx(a, b, Input, Tool, ""), MAX_DEPTH + 1, [], 0);
    WrapIsAccepted(MAX_DEPTH + 1, Avoiding(b));
    WrapIsAccepted(MAX_DEPTH + 1, AsWritten);
  }

  /** A property newly declared and not required is classified differently the other way round. */
  lemma AnOptionalPropertyHasNoDual()
    ensures var (a, b) := (Object(EMPTY), Object(map["properties" := Object(map["p" := TRUE])]));
            multiset(CompareChanges(a, b, Input, Tool, "", [])) != multiset(CompareChanges(b, a, Output, Tool, "", []))
  {
    hide CompareChanges;
    var ob := map["properties" := Object(map["p" := TRUE])];
    var ctx := Context(Input, EMPTY, ob);
    D.DirectionDuality(Object(EMPTY), Object(ob), Tool, "", []);
    assert "p" in Properties(ob) && !Requires(ob, "p");
    assert !D.NameMirrored(ctx, EMPTY, ob, 0, "p");
    assert Resolved(ctx.rootA, ctx.rootA, HopsAt(0)) == ctx.rootA;
    assert Resolved(ctx.rootB, ctx.rootB, HopsAt(0)) == ctx.rootB;
  }
}
