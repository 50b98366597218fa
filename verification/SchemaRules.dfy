/** What each rule of the comparison reports, told by the schema whose values must go on being accepted
    and the one that must accept them: the direction, and which side is old, do not come into it. */
module SchemaRules {
  import opened Json
  import opened Changes
  import opened Pointer
  import opened SchemaDiff
  import opened SchemaMeaning
  import opened SchemaSoundness
  import D = SchemaDuality

  // --- One keyword, one rule ---

  /** At most one change, at `place`: none where the sides agree, and breaking unless values are `kept`. */
  function Judged(ctx: Ctx, place: seq<Step>, agree: bool, kept: bool): seq<Change> {
    if agree then [] else [Change(if kept then Compatible else Breaking, ctx.kind, ctx.name, place)]
  }

  lemma TypeRule(ctx: Ctx, oa: map<string, Json>, ob: map<string, Json>, path: seq<Step>)
    ensures var (s, t) := (TypesOf(Source(ctx.direction, oa, ob)), TypesOf(Target(ctx.direction, oa, ob)));
            TypeChanges(ctx, oa, ob, path) == Judged(ctx, path + [Key("type")], s == t, s != {} && s <= t)
  {
  }

  /** Both sides of `enum` are told: values gone from the list, and values new to it. */
  lemma EnumRule(ctx: Ctx, oa: map<string, Json>, ob: map<string, Json>, path: seq<Step>)
    ensures var s := SetOf(Get(Source(ctx.direction, oa, ob), "enum"));
            var t := SetOf(Get(Target(ctx.direction, oa, ob), "enum"));
            var lost := Judged(ctx, path + [Key("enum")], s <= t, false);
            var gained := Judged(ctx, path + [Key("enum")], t <= s, true);
            EnumChanges(ctx, oa, ob, path) == if ctx.direction.Input? then lost + gained else gained + lost
  {
    var (ea, eb) := (SetOf(Get(oa, "enum")), SetOf(Get(ob, "enum")));
    NothingOver(ea, eb);
    NothingOver(eb, ea);
    hide SetOf;
  }

  lemma NothingOver<T>(x: set<T>, y: set<T>)
    ensures x - y == {} <==> x <= y
  {
    assert forall e :: e in x && e !in y ==> e in x - y;
  }

  lemma BoundRule(ctx: Ctx, oa: map<string, Json>, ob: map<string, Json>, path: seq<Step>, bound: (string, bool))
    ensures var s := Num(Get(Source(ctx.direction, oa, ob), bound.0));
            var t := Num(Get(Target(ctx.direction, oa, ob), bound.0));
            BoundChange(ctx, oa, ob, path, bound)
            == Judged(ctx, path + [Key(bound.0)], s == t, NoStricter(s, t, bound.1))
  {
  }

  predicate Within(limit: Option<real>, lower: bool, x: real) {
    limit.Some? ==> if lower then x >= limit.value else x <= limit.value
  }

  /** A bound is no stricter exactly when it lets through every number the other does. */
  lemma BoundIsExact(s: Option<real>, t: Option<real>, lower: bool)
    ensures NoStricter(s, t, lower) <==> forall x :: Within(s, lower, x) ==> Within(t, lower, x)
  {
    if !NoStricter(s, t, lower) {
      var x := if s.Some? then s.value else if lower then t.value - 1.0 else t.value + 1.0;
      assert Within(s, lower, x) && !Within(t, lower, x);
    }
  }

  /** `pattern` and its like: only one that goes keeps every value. */
  lemma FixedRule(ctx: Ctx, oa: map<string, Json>, ob: map<string, Json>, path: seq<Step>, key: string)
    ensures var (s, t) := (Get(Source(ctx.direction, oa, ob), key), Get(Target(ctx.direction, oa, ob), key));
            FixedChange(ctx, oa, ob, path, key) == Judged(ctx, path + [Key(key)], s == t, t.None?)
  {
  }

  lemma ConstRule(ctx: Ctx, oa: map<string, Json>, ob: map<string, Json>, path: seq<Step>)
    ensures var (s, t) := (Get(Source(ctx.direction, oa, ob), "const"), Get(Target(ctx.direction, oa, ob), "const"));
            ConstChanges(ctx, oa, ob, path) == Judged(ctx, path + [Key("const")], s == t, false)
  {
  }

  lemma AdditionalRule(ctx: Ctx, oa: map<string, Json>, ob: map<string, Json>, path: seq<Step>)
    ensures var (s, t) := (Source(ctx.direction, oa, ob), Target(ctx.direction, oa, ob));
            AdditionalChanges(ctx, oa, ob, path)
            == Judged(ctx, path + [Key("additionalProperties")], Forbids(s) == Forbids(t), !Forbids(t))
  {
  }

  /** A property both sides declare is reported when it becomes required, or no longer is. */
  lemma RequiredRule(ctx: Ctx, oa: map<string, Json>, ob: map<string, Json>, place: seq<Step>, name: string)
    ensures var (s, t) := (Source(ctx.direction, oa, ob), Target(ctx.direction, oa, ob));
            RequiredChanges(ctx, oa, ob, place, name)
            == Judged(ctx, place, Requires(s, name) == Requires(t, name), !Requires(t, name))
  {
  }

  lemma UnknownRule(ctx: Ctx, oa: map<string, Json>, ob: map<string, Json>, path: seq<Step>, handled: set<string>,
                    key: string)
    ensures UnknownChange(ctx, oa, ob, path, handled, key)
         == Judged(ctx, path + [Key(key)], key in handled || Get(oa, key) == Get(ob, key), false)
  {
  }

  /** What says nothing about values is cosmetic. */
  lemma MetadataRule(ctx: Ctx, oa: map<string, Json>, ob: map<string, Json>, path: seq<Step>, key: string)
    ensures Get(oa, key) == Get(ob, key) ==> MetadataChange(ctx, oa, ob, path, key) == []
    ensures Get(oa, key) != Get(ob, key) ==>
              MetadataChange(ctx, oa, ob, path, key) == [Change(Cosmetic, ctx.kind, ctx.name, path + [Key(key)])]
  {
  }

  // --- No rule is left out ---

  lemma {:induction false} BoundIsReported(ctx: Ctx, oa: map<string, Json>, ob: map<string, Json>, path: seq<Step>,
                                           bounds: seq<(string, bool)>, bound: (string, bool), c: Change)
    requires bound in bounds && c in BoundChange(ctx, oa, ob, path, bound)
    ensures c in BoundChanges(ctx, oa, ob, path, bounds)
  {
    hide BoundChange;
    if bound != bounds[0] {
      BoundIsReported(ctx, oa, ob, path, bounds[1..], bound, c);
    }
  }

  lemma {:induction false} FixedIsReported(ctx: Ctx, oa: map<string, Json>, ob: map<string, Json>, path: seq<Step>,
                                           keys: seq<string>, key: string, c: Change)
    requires key in keys && c in FixedChange(ctx, oa, ob, path, key)
    ensures c in FixedChanges(ctx, oa, ob, path, keys)
  {
    hide FixedChange;
    if key != keys[0] {
      FixedIsReported(ctx, oa, ob, path, keys[1..], key, c);
    }
  }

  lemma {:induction false} MetadataIsReported(ctx: Ctx, oa: map<string, Json>, ob: map<string, Json>, path: seq<Step>,
                                              keys: seq<string>, key: string, c: Change)
    requires key in keys && c in MetadataChange(ctx, oa, ob, path, key)
    ensures c in MetadataChanges(ctx, oa, ob, path, keys)
  {
    hide MetadataChange;
    if key != keys[0] {
      MetadataIsReported(ctx, oa, ob, path, keys[1..], key, c);
    }
  }

  /** Of one of the rules for keywords that look at a value alone. */
  ghost predicate ByARule(ctx: Ctx, keys: Keywords, oa: map<string, Json>, ob: map<string, Json>, path: seq<Step>,
                          c: Change)
  {
    || (exists key :: key in keys.metadata && c in MetadataChange(ctx, oa, ob, path, key))
    || c in TypeChanges(ctx, oa, ob, path) || c in EnumChanges(ctx, oa, ob, path)
    || c in ConstChanges(ctx, oa, ob, path) || c in AdditionalChanges(ctx, oa, ob, path)
    || (exists bound :: bound in keys.bounds && c in BoundChange(ctx, oa, ob, path, bound))
    || (exists key :: key in keys.fixedKeys && c in FixedChange(ctx, oa, ob, path, key))
  }

  /** What any of these rules finds is reported by the node. */
  lemma EveryRuleIsReported(ctx: Ctx, oa: map<string, Json>, ob: map<string, Json>, path: seq<Step>, depth: nat,
                            c: Change)
    requires depth <= MAX_DEPTH && ByARule(ctx, KEYWORDS, oa, ob, path, c)
    ensures c in NodeChanges(ctx, KEYWORDS, oa, ob, path, depth)
  {
    assert c in KeywordChanges(ctx, KEYWORDS, oa, ob, path) by {
      RuleIsReported(ctx, KEYWORDS, oa, ob, path, c);
    }
    hide KeywordChanges, PropertyChanges, AddedChanges, ItemsChanges, BranchKeyChanges, UnknownChanges, Sorted,
      Properties, Keywords.Handled, ByARule;
  }

  lemma RuleIsReported(ctx: Ctx, keys: Keywords, oa: map<string, Json>, ob: map<string, Json>, path: seq<Step>,
                       c: Change)
    requires ByARule(ctx, keys, oa, ob, path, c)
    ensures c in KeywordChanges(ctx, keys, oa, ob, path)
  {
    hide MetadataChange, MetadataChanges, TypeChanges, EnumChanges, ConstChanges, BoundChange, BoundChanges,
      FixedChange, FixedChanges, AdditionalChanges;
    if key :| key in keys.metadata && c in MetadataChange(ctx, oa, ob, path, key) {
      MetadataIsReported(ctx, oa, ob, path, keys.metadata, key, c);
    } else if bound :| bound in keys.bounds && c in BoundChange(ctx, oa, ob, path, bound) {
      BoundIsReported(ctx, oa, ob, path, keys.bounds, bound, c);
    } else if key :| key in keys.fixedKeys && c in FixedChange(ctx, oa, ob, path, key) {
      FixedIsReported(ctx, oa, ob, path, keys.fixedKeys, key, c);
    }
  }

  // --- Lists of schemas that change length ---

  /** Where both sides have a list of schemas under a keyword, of different lengths: one change, breaking
      exactly when the target list asks more, being longer for `allOf` and shorter for the others. */
  lemma BranchCountRule(ctx: Ctx, oa: map<string, Json>, ob: map<string, Json>, path: seq<Step>, depth: nat,
                        key: string, c: Change)
    requires depth <= MAX_DEPTH && key in KEYWORDS.branches
    requires Branches(oa, key).Some? && Branches(ob, key).Some?
    requires |oa[key].items| != |ob[key].items| && D.AtBranchKey(c, path, key)
    ensures var s := |Source(ctx.direction, oa, ob)[key].items|;
            var t := |Target(ctx.direction, oa, ob)[key].items|;
            c in NodeChanges(ctx, KEYWORDS, oa, ob, path, depth) <==>
              c == Change(if (if key == "allOf" then t > s else t < s) then Breaking else Compatible,
                          ctx.kind, ctx.name, path + [Key(key)])
  {
    hide NodeChanges, BranchChanges;
    D.BranchKeyAlone(ctx, oa, ob, path, depth, key, c);
    assert c in multiset(NodeChanges(ctx, KEYWORDS, oa, ob, path, depth))
      <==> c in NodeChanges(ctx, KEYWORDS, oa, ob, path, depth);
    assert c in multiset(BranchKeyChange(ctx, oa, ob, path, depth, key))
      <==> c in BranchKeyChange(ctx, oa, ob, path, depth, key);
  }

  /** A list on one side alone is breaking, whichever it is. */
  lemma BranchesAppearRule(ctx: Ctx, oa: map<string, Json>, ob: map<string, Json>, path: seq<Step>, depth: nat,
                           key: string, c: Change)
    requires depth <= MAX_DEPTH && key in KEYWORDS.branches
    requires Branches(oa, key).Some? != Branches(ob, key).Some? && D.AtBranchKey(c, path, key)
    ensures c in NodeChanges(ctx, KEYWORDS, oa, ob, path, depth) <==>
              c == Change(Breaking, ctx.kind, ctx.name, path + [Key(key)])
  {
    hide NodeChanges, BranchChanges;
    D.BranchKeyAlone(ctx, oa, ob, path, depth, key, c);
    assert c in multiset(NodeChanges(ctx, KEYWORDS, oa, ob, path, depth))
      <==> c in NodeChanges(ctx, KEYWORDS, oa, ob, path, depth);
    assert c in multiset(BranchKeyChange(ctx, oa, ob, path, depth, key))
      <==> c in BranchKeyChange(ctx, oa, ob, path, depth, key);
  }

  /** The rule's reason: a list of alternatives that only grows at its end loses no value. */
  lemma MoreAlternativesKeepValues(env: Env, direction: Direction, a: Json, b: Json, v: Json)
    requires a.Object? && b.Object?
    requires Branches(a.fields, "anyOf").Some? && Branches(b.fields, "anyOf").Some?
    requires Source(direction, a, b).fields["anyOf"].items <= Target(direction, a, b).fields["anyOf"].items
    requires AnyOk(env, SourceExtras(direction, b), Source(direction, a, b), v)
    ensures AnyOk(env, TargetExtras(direction), Target(direction, a, b), v)
  {
    hide Accepts;
    var (x, y) := (SourceExtras(direction, b), TargetExtras(direction));
    var (s, t) := (Source(direction, a, b).fields["anyOf"].items, Target(direction, a, b).fields["anyOf"].items);
    var i :| 0 <= i < |s| && Accepts(env, x.BelowBranch("anyOf", i), s[i], v);
    Weaken(env, x.BelowBranch("anyOf", i), y.BelowBranch("anyOf", i), s[i], v);
    assert t[i] == s[i];
  }

  /** And a list of demands that only shrinks at its end loses none. */
  lemma FewerDemandsKeepValues(env: Env, direction: Direction, a: Json, b: Json, v: Json)
    requires a.Object? && b.Object?
    requires Branches(a.fields, "allOf").Some? && Branches(b.fields, "allOf").Some?
    requires Target(direction, a, b).fields["allOf"].items <= Source(direction, a, b).fields["allOf"].items
    requires AllOk(env, SourceExtras(direction, b), Source(direction, a, b), v)
    ensures AllOk(env, TargetExtras(direction), Target(direction, a, b), v)
  {
    hide Accepts;
    var (x, y) := (SourceExtras(direction, b), TargetExtras(direction));
    var (s, t) := (Source(direction, a, b).fields["allOf"].items, Target(direction, a, b).fields["allOf"].items);
    forall i | 0 <= i < |t| ensures Accepts(env, y.BelowBranch("allOf", i), t[i], v) {
      assert t[i] == s[i];
      Weaken(env, x.BelowBranch("allOf", i), y.BelowBranch("allOf", i), s[i], v);
    }
  }

  /** Taking alternatives away is never reported as harmless, nor is adding demands, and the whole
      comparison of two schemas says so. */
  lemma StricterListsAreBreaking(oa: map<string, Json>, ob: map<string, Json>, direction: Direction, kind: ItemKind,
                                 name: string, path: seq<Step>, key: string)
    requires key in KEYWORDS.branches && "$ref" !in oa && "$ref" !in ob
    requires Branches(oa, key).Some? && Branches(ob, key).Some?
    requires var (s, t) := (Source(direction, oa, ob)[key].items, Target(direction, oa, ob)[key].items);
             if key == "allOf" then s < t else t < s
    ensures !NoBreaking(CompareChanges(Object(oa), Object(ob), direction, kind, name, path))
  {
    hide NodeChanges;
    var ctx := Ctx(Object(oa), Object(ob), direction, kind, name);
    var c := Change(Breaking, kind, name, path + [Key(key)]);
    assert c.path[|path|] == Key(key);
    BranchCountRule(ctx, oa, ob, path, 0, key, c);
    assert c in NodeChanges(ctx, KEYWORDS, oa, ob, path, 0);
    OwnSchema(Object(oa), Object(oa));
    OwnSchema(Object(ob), Object(ob));
    assert oa[key] != ob[key];
  }

  lemma OwnSchema(root: Json, s: Json)
    requires Field(s, "$ref") == None
    ensures Resolved(root, s, HopsAt(0)) == s
  {
  }
}
