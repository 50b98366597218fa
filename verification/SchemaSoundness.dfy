/** A comparison that reports nothing breaking means the schemas are compatible. */
module SchemaSoundness {
  import opened Json
  import opened Changes
  import opened Pointer
  import opened SchemaDiff
  import opened SchemaMeaning

  // --- The schemas the comparison is sound for ---

  /** A name printed as it is: nothing in it is escaped. */
  predicate Plain(name: string) {
    Escape(name) == name
  }

  predicate TypeWellFormed(o: map<string, Json>) {
    match Get(o, "type")
    case None => true
    case Some(String(_)) => true
    case Some(Array(ts)) => ts != [] && forall t :: t in ts ==> t.String?
    case _ => false
  }

  /** The types are those of `type` alone. */
  predicate TypesRead(o: map<string, Json>) {
    TypeWellFormed(o) && !HasNullAlternative(o, "anyOf") && !HasNullAlternative(o, "oneOf")
  }

  predicate EnumWellFormed(o: map<string, Json>) {
    "enum" in o ==> o["enum"].Array?
  }

  predicate RequiredWellFormed(o: map<string, Json>) {
    "required" in o ==>
      && o["required"].Array?
      && forall r :: r in o["required"].items ==> r.String? && r.s in Properties(o) && Plain(r.s)
  }

  predicate BranchesWellFormed(o: map<string, Json>, key: string) {
    key in o ==> o[key].Array?
  }

  /** A keyword of `o` depends on the keywords beside it: section 11 of JSON Schema Core 2020-12. */
  predicate LooksBeside(o: map<string, Json>) {
    "unevaluatedProperties" in o || "unevaluatedItems" in o
  }

  /** What the comparison needs of one schema, apart from the schemas below it. */
  predicate NodeWellFormed(o: map<string, Json>) {
    && "$ref" !in o
    && !LooksBeside(o)
    && TypesRead(o)
    && EnumWellFormed(o)
    && (forall b :: b in KEYWORDS.bounds && b.0 in o ==> o[b.0].Number?)
    && ("additionalProperties" in o ==> o["additionalProperties"].Bool?)
    && ("properties" in o ==> o["properties"].Object?)
    && RequiredWellFormed(o)
    && BranchesWellFormed(o, "anyOf")
    && BranchesWellFormed(o, "allOf")
    && BranchesWellFormed(o, "oneOf")
  }

  /** Keywords whose meaning depends on schemas elsewhere. */
  predicate Refers(key: string) {
    key == "$ref" || key == "$dynamicRef" || key == "$recursiveRef"
  }

  /** Nothing in `v`, at any depth, refers to a schema elsewhere. */
  predicate NoReferences(v: Json)
    decreases v
  {
    match v
    case Array(items) => forall i :: 0 <= i < |items| ==> NoReferences(items[i])
    case Object(fields) => forall k :: k in fields ==> !Refers(k) && NoReferences(fields[k])
    case _ => true
  }

  /** The parts of a schema the soundness of the walk rests on without being looked into: the branches
      of `oneOf`, and the keywords without a rule. */
  predicate Closed(o: map<string, Json>) {
    && NoReferences(Object(Rest(o)))
    && (Branches(o, "oneOf").Some? ==> forall x :: x in o["oneOf"].items ==> NoReferences(x))
  }

  /** `s` and every schema the walk reaches below it are well formed and nest no deeper than the walk
      goes, and what is not looked into refers to nothing. */
  predicate Covered(s: Json, depth: nat)
    decreases s
  {
    && depth <= MAX_DEPTH
    && (s.Bool? || s.Object?)
    && (s.Object? ==>
          var o := s.fields;
          && NodeWellFormed(o)
          && Closed(o)
          && (forall n :: n in Properties(o) ==> Covered(Properties(o)[n], depth + 1))
          && ("items" in o ==> Covered(o["items"], depth + 1))
          && (Branches(o, "anyOf").Some? ==> forall x :: x in o["anyOf"].items ==> Covered(x, depth + 1))
          && (Branches(o, "allOf").Some? ==> forall x :: x in o["allOf"].items ==> Covered(x, depth + 1)))
  }

  predicate SameLength(oa: map<string, Json>, ob: map<string, Json>, key: string) {
    Branches(oa, key).Some? && Branches(ob, key).Some? ==> |Branches(oa, key).value| == |Branches(ob, key).value|
  }

  /** What the comparison needs of two schemas taken together. */
  predicate NodesMatch(oa: map<string, Json>, ob: map<string, Json>) {
    && ("enum" in oa <==> "enum" in ob)
    && SameLength(oa, ob, "anyOf")
    && SameLength(oa, ob, "allOf")
    && Get(oa, "oneOf") == Get(ob, "oneOf")
  }

  predicate Matched(a: Json, b: Json)
    decreases a
  {
    a.Object? && b.Object? ==>
      var (oa, ob) := (a.fields, b.fields);
      && NodesMatch(oa, ob)
      && (forall n :: n in Properties(oa) && n in Properties(ob) ==> Matched(Properties(oa)[n], Properties(ob)[n]))
      && ("items" in oa && "items" in ob ==> Matched(oa["items"], ob["items"]))
      && (Branches(oa, "anyOf").Some? && Branches(ob, "anyOf").Some? ==>
            forall i :: 0 <= i < |oa["anyOf"].items| ==> Matched(oa["anyOf"].items[i], ob["anyOf"].items[i]))
      && (Branches(oa, "allOf").Some? && Branches(ob, "allOf").Some? ==>
            forall i :: 0 <= i < |oa["allOf"].items| ==> Matched(oa["allOf"].items[i], ob["allOf"].items[i]))
  }

  // --- Printing is injective ---

  lemma EscapeCharShape(c: char)
    ensures var p := EscapeChar(c);
            || (|p| == 1 && p[0] != '\\')
            || (|p| == 2 && p[0] == '\\' && p[1] != 'u')
            || (|p| == 6 && p[0] == '\\' && p[1] == 'u')
  {
  }

  lemma HexDigitInjective(m: nat, n: nat)
    requires m < 16 && n < 16 && HexDigit(m) == HexDigit(n)
    ensures m == n
  {
  }

  lemma EscapeCharInjective(c: char, d: char)
    requires EscapeChar(c) == EscapeChar(d)
    ensures c == d
  {
    hide HexDigit;
    var (p, q) := (EscapeChar(c), EscapeChar(d));
    if |p| == 6 {
      var (m, n) := (c as nat, d as nat);
      assert p[4] == HexDigit(m / 16) && p[5] == HexDigit(m % 16) && q[4] == HexDigit(n / 16);
      assert q[5] == HexDigit(n % 16);
      HexDigitInjective(m / 16, n / 16);
      HexDigitInjective(m % 16, n % 16);
    } else if |p| == 2 {
      assert p[1] == q[1];
    } else {
      assert p[0] == q[0];
    }
  }

  lemma EscapeCharIsPrefixFree(c: char, x: string, d: char, y: string)
    requires EscapeChar(c) + x == EscapeChar(d) + y
    ensures c == d && x == y
  {
    EscapeCharShape(c);
    EscapeCharShape(d);
    hide EscapeChar;
    var (p, q) := (EscapeChar(c), EscapeChar(d));
    assert (p + x)[0] == p[0] && (q + y)[0] == q[0];
    assert |p| > 1 && |q| > 1 ==> (p + x)[1] == p[1] && (q + y)[1] == q[1];
    assert |p| == |q|;
    assert p == (p + x)[..|p|] == (q + y)[..|q|] == q;
    EscapeCharInjective(c, d);
    assert x == (p + x)[|p|..] == (q + y)[|q|..] == y;
  }

  lemma {:induction false} EscapeInjective(s: string, t: string)
    requires Escape(s) == Escape(t)
    ensures s == t
  {
    if s == [] || t == [] {
      assert forall c :: |EscapeChar(c)| > 0;
    } else {
      EscapeCharIsPrefixFree(s[0], Escape(s[1..]), t[0], Escape(t[1..]));
      EscapeInjective(s[1..], t[1..]);
      assert s == [s[0]] + s[1..] && t == [t[0]] + t[1..];
    }
  }

  lemma PrintingIsInjective(v: Json, w: Json)
    requires TextOf(v) == TextOf(w)
    ensures v == w
  {
    if v.String? && w.String? {
      EscapeInjective(v.s, w.s);
    }
  }

  predicate IsListed(o: map<string, Json>, name: string) {
    "required" in o && o["required"].Array? && String(name) in o["required"].items
  }

  /** A plain name is found in `required` exactly when it is listed there. */
  lemma PlainNameIsFound(o: map<string, Json>, name: string)
    requires Plain(name)
    ensures Requires(o, name) <==> IsListed(o, name)
  {
    if "required" in o && o["required"].Array? {
      var items := o["required"].items;
      if String(name) in items {
        assert TextOf(String(name)) == QuotedName(name);
      }
      if Requires(o, name) {
        var x :| x in items && TextOf(x) == QuotedName(name);
        PrintingIsInjective(x, String(name));
      }
    }
  }

  /** And no other name is: one that prints escaped is not found where it is all that is listed. */
  lemma OnlyPlainNamesAreFound(name: string)
    ensures Plain(name) <==> forall o: map<string, Json> :: Requires(o, name) <==> IsListed(o, name)
  {
    if Plain(name) {
      forall o: map<string, Json> ensures Requires(o, name) <==> IsListed(o, name) {
        PlainNameIsFound(o, name);
      }
    } else {
      var o: map<string, Json> := map["required" := Array([String(name)])];
      assert Get(o, "required").value.items == [String(name)];
      assert forall x :: x in SetOf(Get(o, "required")) ==> x == Quoted(Escape(name));
      assert String(name) in o["required"].items;
      assert IsListed(o, name) && !Requires(o, name);
    }
  }

  /** The plain names are those without quotes, backslashes and control characters. */
  lemma {:induction false} WhatIsPlain(name: string)
    ensures Plain(name) <==> forall i :: 0 <= i < |name| ==> name[i] >= ' ' && name[i] != '"' && name[i] != '\\'
    ensures |Escape(name)| >= |name| && (|Escape(name)| == |name| ==> Plain(name))
  {
    if name != [] {
      WhatIsPlain(name[1..]);
      assert name == [name[0]] + name[1..];
      assert |EscapeChar(name[0])| >= 1 && (|EscapeChar(name[0])| == 1 ==> EscapeChar(name[0]) == [name[0]]);
    }
  }

  // --- One keyword at a time ---

  /** The schema whose values must go on being accepted. */
  function Source<T>(direction: Direction, a: T, b: T): T {
    if direction.Input? then a else b
  }

  /** The schema that must go on accepting them. */
  function Target<T>(direction: Direction, a: T, b: T): T {
    if direction.Input? then b else a
  }

  /** `type` is quiet exactly when it stays as it is, or both list types and the target lists all of the
      source's. */
  lemma TypeIsQuiet(ctx: Ctx, oa: map<string, Json>, ob: map<string, Json>, path: seq<Step>)
    ensures var (s, t) := (TypesOf(Source(ctx.direction, oa, ob)), TypesOf(Target(ctx.direction, oa, ob)));
            NoBreaking(TypeChanges(ctx, oa, ob, path)) <==> s == t || (s != {} && s <= t)
  {
    var (ta, tb) := (TypesOf(oa), TypesOf(ob));
    assert ta != tb ==>
        At(ctx, TypeSeverity(ctx.direction, ta, tb), path + [Key("type")]) in TypeChanges(ctx, oa, ob, path);
  }

  lemma TypeLoosens(ctx: Ctx, oa: map<string, Json>, ob: map<string, Json>, path: seq<Step>, v: Json)
    requires TypesRead(oa) && TypesRead(ob)
    requires NoBreaking(TypeChanges(ctx, oa, ob, path))
    requires TypeOk(Source(ctx.direction, oa, ob), v)
    ensures TypeOk(Target(ctx.direction, oa, ob), v)
  {
    TypeIsQuiet(ctx, oa, ob, path);
    TypeSetMeaning(Source(ctx.direction, oa, ob), v);
    TypeSetMeaning(Target(ctx.direction, oa, ob), v);
    hide TypesOf;
  }

  lemma TypeSetMeaning(o: map<string, Json>, v: Json)
    requires TypesRead(o)
    ensures TypeOk(o, v) <==> TypesOf(o) == {} || exists t :: t in TypesOf(o) && Is(v, t)
  {
    match Get(o, "type") {
      case Some(String(t)) => assert t in TypesOf(o);
      case Some(Array(ts)) =>
        assert ts[0].s in TypesOf(o);
        assert forall t :: t in TypesOf(o) <==> String(t) in ts;
      case _ =>
    }
  }

  const TYPE_NAMES := {"null", "boolean", "number", "string", "array", "object"}

  /** Whatever is of type `t` is of one of `types`, no types standing for any value. */
  predicate Includes(types: set<string>, t: string) {
    types == {} || t in types || (t == "integer" && "number" in types) || (t != "integer" && t !in TYPE_NAMES)
  }

  /** A value of type `t` that is of no other type but, for an integer, `number`. */
  function Typical(t: string): Json {
    if t == "null" then Null
    else if t == "boolean" then Bool(true)
    else if t == "number" then Number(0.5)
    else if t == "integer" then Number(0.0)
    else if t == "string" then String("")
    else if t == "array" then Array([])
    else Object(map[])
  }

  lemma TypicalIs(t: string, u: string)
    requires t in TYPE_NAMES || t == "integer"
    ensures Is(Typical(t), t)
    ensures Is(Typical(t), u) ==> u == t || (t == "integer" && u == "number")
  {
    assert 0.5.Floor == 0 && 0.0.Floor == 0;
  }

  predicate Any(types: set<string>, v: Json) {
    types == {} || exists t :: t in types && Is(v, t)
  }

  lemma EveryValueHasAType(v: Json)
    ensures exists t :: t in TYPE_NAMES && Is(v, t)
  {
    var t :=
      match v
      case Null => "null"
      case Bool(_) => "boolean"
      case Number(_) => "number"
      case String(_) => "string"
      case Array(_) => "array"
      case Object(_) => "object";
    assert t in TYPE_NAMES && Is(v, t);
  }

  /** Every value of the types `s` is of the types `t` exactly when each of them is included, and any
      value at all exactly when `t` names every type. */
  lemma WhatTypesKeep(s: set<string>, t: set<string>)
    ensures (forall v :: Any(s, v) ==> Any(t, v)) <==>
              if s == {} then t == {} || TYPE_NAMES <= t else forall x :: x in s ==> Includes(t, x)
  {
    if forall v :: Any(s, v) ==> Any(t, v) {
      if t != {} {
        forall x | (if s == {} then x in TYPE_NAMES else x in s) ensures Includes(t, x) {
          if x in TYPE_NAMES || x == "integer" {
            TypicalIs(x, x);
            assert Any(s, Typical(x));
            var u :| u in t && Is(Typical(x), u);
            TypicalIs(x, u);
          }
        }
      }
    } else {
      var v :| Any(s, v) && !Any(t, v);
      if s == {} {
        EveryValueHasAType(v);
      } else {
        var x :| x in s && Is(v, x);
        assert !Includes(t, x);
      }
    }
  }

  /** When a change of `type` from `s` to `t` keeps every value. `TypeIsQuiet` asks for more: `integer`
      that becomes `number`, or a `type` that goes, is reported although no value is lost. */
  lemma TypeIsExact(s: map<string, Json>, t: map<string, Json>)
    requires TypesRead(s) && TypesRead(t)
    ensures (forall v :: TypeOk(s, v) ==> TypeOk(t, v)) <==>
              if TypesOf(s) == {} then TypesOf(t) == {} || TYPE_NAMES <= TypesOf(t)
              else forall x :: x in TypesOf(s) ==> Includes(TypesOf(t), x)
  {
    hide TypesRead, TypeOk, TypesOf, Any, Includes;
    forall v ensures TypeOk(s, v) == Any(TypesOf(s), v) && TypeOk(t, v) == Any(TypesOf(t), v) {
      AnyIs(s, v);
      AnyIs(t, v);
    }
    WhatTypesKeep(TypesOf(s), TypesOf(t));
  }

  lemma AnyIs(o: map<string, Json>, v: Json)
    requires TypesRead(o)
    ensures TypeOk(o, v) <==> Any(TypesOf(o), v)
  {
    TypeSetMeaning(o, v);
  }

  lemma EnumLoosens(ctx: Ctx, oa: map<string, Json>, ob: map<string, Json>, path: seq<Step>, v: Json)
    requires EnumWellFormed(oa) && EnumWellFormed(ob)
    requires var (s, t) := (Source(ctx.direction, oa, ob), Target(ctx.direction, oa, ob)); "enum" in t ==> "enum" in s
    requires NoBreaking(EnumChanges(ctx, oa, ob, path))
    requires EnumOk(Source(ctx.direction, oa, ob), v)
    ensures EnumOk(Target(ctx.direction, oa, ob), v)
  {
    var (s, t) := (Source(ctx.direction, oa, ob), Target(ctx.direction, oa, ob));
    if "enum" in t {
      EnumIsQuiet(ctx, oa, ob, path);
      assert TextOf(v) in SetOf(Get(s, "enum"));
      var w :| w in t["enum"].items && TextOf(w) == TextOf(v);
      PrintingIsInjective(v, w);
    }
  }

  /** `enum` is quiet exactly when the target lists whatever the source lists. */
  lemma EnumIsQuiet(ctx: Ctx, oa: map<string, Json>, ob: map<string, Json>, path: seq<Step>)
    ensures NoBreaking(EnumChanges(ctx, oa, ob, path)) <==>
              SetOf(Get(Source(ctx.direction, oa, ob), "enum")) <= SetOf(Get(Target(ctx.direction, oa, ob), "enum"))
  {
    var (ea, eb) := (SetOf(Get(oa, "enum")), SetOf(Get(ob, "enum")));
    var (es, et) := (Source(ctx.direction, ea, eb), Target(ctx.direction, ea, eb));
    assert es - et != {} ==> At(ctx, Breaking, path + [Key("enum")]) in EnumChanges(ctx, oa, ob, path);
    assert forall x :: x in es && x !in et ==> x in es - et;
  }

  /** With `enum` on both sides or neither, it is quiet exactly when every value listed stays listed. In
      general a quiet `enum` keeps every value exactly when it does not appear. */
  lemma EnumIsExact(ctx: Ctx, oa: map<string, Json>, ob: map<string, Json>, path: seq<Step>)
    requires EnumWellFormed(oa) && EnumWellFormed(ob)
    ensures var (s, t) := (Source(ctx.direction, oa, ob), Target(ctx.direction, oa, ob));
            var kept := forall v :: EnumOk(s, v) ==> EnumOk(t, v);
            && (("enum" in oa <==> "enum" in ob) ==> (NoBreaking(EnumChanges(ctx, oa, ob, path)) <==> kept))
            && (NoBreaking(EnumChanges(ctx, oa, ob, path)) ==> (kept <==> ("enum" in t ==> "enum" in s)))
  {
    var (s, t) := (Source(ctx.direction, oa, ob), Target(ctx.direction, oa, ob));
    EnumIsQuiet(ctx, oa, ob, path);
    if NoBreaking(EnumChanges(ctx, oa, ob, path)) && ("enum" in t ==> "enum" in s) {
      forall v | EnumOk(s, v) ensures EnumOk(t, v) {
        EnumLoosens(ctx, oa, ob, path, v);
      }
    }
    if "enum" in t && "enum" !in s {
      SomethingIsNotListed(t["enum"].items);
      assert EnumOk(s, t["enum"]) && !EnumOk(t, t["enum"]);
    }
    if "enum" in s && "enum" in t && forall v :: EnumOk(s, v) ==> EnumOk(t, v) {
      forall x | x in SetOf(Get(s, "enum")) ensures x in SetOf(Get(t, "enum")) {
        var v :| v in s["enum"].items && TextOf(v) == x;
        assert EnumOk(s, v);
      }
    }
  }

  /** A list does not hold itself. */
  lemma SomethingIsNotListed(items: seq<Json>)
    ensures Array(items) !in items
  {
    forall i | 0 <= i < |items| ensures items[i] != Array(items) {
    }
  }

  /** Bound `t` lets through whatever bound `s` does. */
  predicate NoStricter(s: Option<real>, t: Option<real>, higherIsStricter: bool) {
    t.Some? ==> s.Some? && (if higherIsStricter then t.value <= s.value else s.value <= t.value)
  }

  lemma {:induction false} BoundsLoosen(ctx: Ctx, oa: map<string, Json>, ob: map<string, Json>, path: seq<Step>,
                                        bounds: seq<(string, bool)>)
    requires NoBreaking(BoundChanges(ctx, oa, ob, path, bounds))
    ensures forall b :: b in bounds ==>
              NoStricter(Num(Get(Source(ctx.direction, oa, ob), b.0)), Num(Get(Target(ctx.direction, oa, ob), b.0)),
                         b.1)
  {
    if bounds != [] {
      var change := BoundChange(ctx, oa, ob, path, bounds[0]);
      NoBreakingParts(change, BoundChanges(ctx, oa, ob, path, bounds[1..]));
      BoundsLoosen(ctx, oa, ob, path, bounds[1..]);
      if change != [] {
        assert change[0].severity != Breaking;
      }
    }
  }

  lemma BoundsAreListed(bounds: seq<(string, bool)>)
    requires bounds == KEYWORDS.bounds
    ensures ("minimum", true) in bounds && ("exclusiveMinimum", true) in bounds && ("minLength", true) in bounds
    ensures ("minItems", true) in bounds && ("minProperties", true) in bounds && ("maximum", false) in bounds
    ensures ("exclusiveMaximum", false) in bounds && ("maxLength", false) in bounds
    ensures ("maxItems", false) in bounds && ("maxProperties", false) in bounds
  {
    assert bounds[0] == ("minimum", true) && bounds[1] == ("exclusiveMinimum", true);
    assert bounds[2] == ("minLength", true) && bounds[3] == ("minItems", true);
    assert bounds[4] == ("minProperties", true) && bounds[5] == ("maximum", false);
    assert bounds[6] == ("exclusiveMaximum", false) && bounds[7] == ("maxLength", false);
    assert bounds[8] == ("maxItems", false) && bounds[9] == ("maxProperties", false);
  }

  lemma BoundsListedStayOk(ctx: Ctx, oa: map<string, Json>, ob: map<string, Json>, path: seq<Step>,
                           bounds: seq<(string, bool)>, v: Json)
    requires NoBreaking(BoundChanges(ctx, oa, ob, path, bounds))
    requires ("minimum", true) in bounds && ("exclusiveMinimum", true) in bounds && ("minLength", true) in bounds
    requires ("minItems", true) in bounds && ("minProperties", true) in bounds && ("maximum", false) in bounds
    requires ("exclusiveMaximum", false) in bounds && ("maxLength", false) in bounds
    requires ("maxItems", false) in bounds && ("maxProperties", false) in bounds
    requires BoundsOk(Source(ctx.direction, oa, ob), v)
    ensures BoundsOk(Target(ctx.direction, oa, ob), v)
  {
    hide BoundChanges, NoBreaking;
    BoundsLoosen(ctx, oa, ob, path, bounds);
  }

  lemma BoundsStayOk(ctx: Ctx, oa: map<string, Json>, ob: map<string, Json>, path: seq<Step>, v: Json)
    requires NoBreaking(BoundChanges(ctx, oa, ob, path, KEYWORDS.bounds))
    requires BoundsOk(Source(ctx.direction, oa, ob), v)
    ensures BoundsOk(Target(ctx.direction, oa, ob), v)
  {
    hide BoundChanges, NoBreaking, BoundsOk;
    BoundsAreListed(KEYWORDS.bounds);
    BoundsListedStayOk(ctx, oa, ob, path, KEYWORDS.bounds, v);
  }

  lemma {:induction false} FixedLoosen(ctx: Ctx, oa: map<string, Json>, ob: map<string, Json>, path: seq<Step>,
                                       keys: seq<string>)
    requires NoBreaking(FixedChanges(ctx, oa, ob, path, keys))
    ensures forall k :: k in keys && k in Target(ctx.direction, oa, ob) ==>
              Get(Source(ctx.direction, oa, ob), k) == Get(Target(ctx.direction, oa, ob), k)
  {
    if keys != [] {
      var change := FixedChange(ctx, oa, ob, path, keys[0]);
      NoBreakingParts(change, FixedChanges(ctx, oa, ob, path, keys[1..]));
      FixedLoosen(ctx, oa, ob, path, keys[1..]);
      if change != [] {
        assert change[0].severity != Breaking;
      }
    }
  }

  lemma FixedStayOk(ctx: Ctx, env: Env, oa: map<string, Json>, ob: map<string, Json>, path: seq<Step>, v: Json,
                    key: string)
    requires key in KEYWORDS.fixedKeys
    requires NoBreaking(FixedChanges(ctx, oa, ob, path, KEYWORDS.fixedKeys))
    requires FixedOk(env, Source(ctx.direction, oa, ob), v, key)
    ensures FixedOk(env, Target(ctx.direction, oa, ob), v, key)
  {
    FixedLoosen(ctx, oa, ob, path, KEYWORDS.fixedKeys);
  }

  lemma {:induction false} UnknownAreEqual(ctx: Ctx, oa: map<string, Json>, ob: map<string, Json>, path: seq<Step>,
                                           handled: set<string>, keys: seq<string>)
    requires NoBreaking(UnknownChanges(ctx, oa, ob, path, handled, keys))
    ensures forall k :: k in keys && k !in handled ==> Get(oa, k) == Get(ob, k)
  {
    if keys != [] {
      var change := UnknownChange(ctx, oa, ob, path, handled, keys[0]);
      NoBreakingParts(change, UnknownChanges(ctx, oa, ob, path, handled, keys[1..]));
      UnknownAreEqual(ctx, oa, ob, path, handled, keys[1..]);
      assert keys[0] in handled || Get(oa, keys[0]) == Get(ob, keys[0])
          || At(ctx, Breaking, path + [Key(keys[0])]) in change;
    }
  }

  lemma RestIsEqual(ctx: Ctx, oa: map<string, Json>, ob: map<string, Json>, path: seq<Step>)
    requires NoBreaking(UnknownChanges(ctx, oa, ob, path, KEYWORDS.Handled(), Sorted(oa.Keys + ob.Keys)))
    ensures Rest(oa) == Rest(ob)
  {
    hide Keywords.Handled;
    var handled := KEYWORDS.Handled();
    UnknownAreEqual(ctx, oa, ob, path, handled, Sorted(oa.Keys + ob.Keys));
    forall k | k in oa.Keys + ob.Keys && k !in handled ensures Get(oa, k) == Get(ob, k) {
      assert k in Sorted(oa.Keys + ob.Keys);
    }
  }

  // --- One node, and the nodes below it ---

  /** How undeclared properties are read in the schema whose values must go on being accepted. */
  function SourceExtras(direction: Direction, b: Json): Extras {
    if direction.Input? then Avoiding(b) else AsWritten
  }

  /** How they are read in the schema that must go on accepting. */
  function TargetExtras(direction: Direction): Extras {
    if direction.Input? then AsWritten else Ignored
  }

  lemma {:induction false} PropertyOf(ctx: Ctx, oa: map<string, Json>, ob: map<string, Json>, path: seq<Step>,
                                      depth: nat, names: seq<string>, name: string)
    requires depth <= MAX_DEPTH
    requires forall n :: n in names ==> n in Properties(oa)
    requires NoBreaking(PropertyChanges(ctx, oa, ob, path, depth, names))
    requires name in names
    ensures NoBreaking(PropertyChange(ctx, oa, ob, path, depth, name))
  {
    hide WalkChanges, PropertyChange;
    NoBreakingParts(PropertyChange(ctx, oa, ob, path, depth, names[0]),
                    PropertyChanges(ctx, oa, ob, path, depth, names[1..]));
    if name != names[0] {
      PropertyOf(ctx, oa, ob, path, depth, names[1..], name);
    }
  }

  lemma {:induction false} AddedOf(ctx: Ctx, oa: map<string, Json>, ob: map<string, Json>, path: seq<Step>,
                                   names: seq<string>, name: string)
    requires NoBreaking(AddedChanges(ctx, oa, ob, path, names))
    requires name in names
    ensures NoBreaking(AddedChange(ctx, oa, ob, path, name))
  {
    hide AddedChange;
    NoBreakingParts(AddedChange(ctx, oa, ob, path, names[0]), AddedChanges(ctx, oa, ob, path, names[1..]));
    if name != names[0] {
      AddedOf(ctx, oa, ob, path, names[1..], name);
    }
  }

  lemma {:induction false} BranchOf(ctx: Ctx, la: seq<Json>, lb: seq<Json>, key: string, path: seq<Step>, depth: nat,
                                    from: nat, i: nat)
    requires depth <= MAX_DEPTH && |la| == |lb| && from <= i < |la|
    requires NoBreaking(BranchChanges(ctx, la, lb, key, path, depth, from))
    ensures NoBreaking(WalkChanges(ctx, la[i], lb[i], path + [Branch(key, i)], depth + 1))
    decreases i - from
  {
    hide WalkChanges;
    NoBreakingParts(WalkChanges(ctx, la[from], lb[from], path + [Branch(key, from)], depth + 1),
                    BranchChanges(ctx, la, lb, key, path, depth, from + 1));
    if from < i {
      BranchOf(ctx, la, lb, key, path, depth, from + 1, i);
    }
  }

  lemma {:induction false} BranchKeyOf(ctx: Ctx, oa: map<string, Json>, ob: map<string, Json>, path: seq<Step>,
                                       depth: nat, keys: seq<string>, key: string)
    requires depth <= MAX_DEPTH && key in keys
    requires NoBreaking(BranchKeyChanges(ctx, oa, ob, path, depth, keys))
    ensures NoBreaking(BranchKeyChange(ctx, oa, ob, path, depth, key))
  {
    hide BranchKeyChange;
    NoBreakingParts(BranchKeyChange(ctx, oa, ob, path, depth, keys[0]),
                    BranchKeyChanges(ctx, oa, ob, path, depth, keys[1..]));
    if key != keys[0] {
      BranchKeyOf(ctx, oa, ob, path, depth, keys[1..], key);
    }
  }

  /** Nothing breaking at a node means nothing breaking in any of its parts. */
  lemma NodeParts(ctx: Ctx, keys: Keywords, oa: map<string, Json>, ob: map<string, Json>, path: seq<Step>, depth: nat)
    requires depth <= MAX_DEPTH
    requires NoBreaking(NodeChanges(ctx, keys, oa, ob, path, depth))
    ensures NoBreaking(KeywordChanges(ctx, keys, oa, ob, path))
    ensures NoBreaking(PropertyChanges(ctx, oa, ob, path, depth, Sorted(Properties(oa).Keys)))
    ensures NoBreaking(AddedChanges(ctx, oa, ob, path, Sorted(Properties(ob).Keys)))
    ensures NoBreaking(ItemsChanges(ctx, oa, ob, path, depth))
    ensures NoBreaking(BranchKeyChanges(ctx, oa, ob, path, depth, keys.branches))
    ensures NoBreaking(UnknownChanges(ctx, oa, ob, path, keys.Handled(), Sorted(oa.Keys + ob.Keys)))
  {
    hide KeywordChanges, PropertyChanges, AddedChanges, ItemsChanges, BranchKeyChanges, UnknownChanges, Sorted,
      Properties, Keywords.Handled;
    var k := KeywordChanges(ctx, keys, oa, ob, path);
    var p := PropertyChanges(ctx, oa, ob, path, depth, Sorted(Properties(oa).Keys));
    var d := AddedChanges(ctx, oa, ob, path, Sorted(Properties(ob).Keys));
    var i := ItemsChanges(ctx, oa, ob, path, depth);
    var b := BranchKeyChanges(ctx, oa, ob, path, depth, keys.branches);
    var u := UnknownChanges(ctx, oa, ob, path, keys.Handled(), Sorted(oa.Keys + ob.Keys));
    NoBreakingParts(k + p + d + i + b, u);
    NoBreakingParts(k + p + d + i, b);
    NoBreakingParts(k + p + d, i);
    NoBreakingParts(k + p, d);
    NoBreakingParts(k, p);
  }

  lemma KeywordParts(ctx: Ctx, keys: Keywords, oa: map<string, Json>, ob: map<string, Json>, path: seq<Step>)
    requires NoBreaking(KeywordChanges(ctx, keys, oa, ob, path))
    ensures NoBreaking(TypeChanges(ctx, oa, ob, path))
    ensures NoBreaking(EnumChanges(ctx, oa, ob, path))
    ensures NoBreaking(ConstChanges(ctx, oa, ob, path))
    ensures NoBreaking(BoundChanges(ctx, oa, ob, path, keys.bounds))
    ensures NoBreaking(FixedChanges(ctx, oa, ob, path, keys.fixedKeys))
    ensures NoBreaking(AdditionalChanges(ctx, oa, ob, path))
  {
    hide MetadataChanges, TypeChanges, EnumChanges, ConstChanges, BoundChanges, FixedChanges, AdditionalChanges;
    var m := MetadataChanges(ctx, oa, ob, path, keys.metadata);
    var t := TypeChanges(ctx, oa, ob, path);
    var e := EnumChanges(ctx, oa, ob, path);
    var c := ConstChanges(ctx, oa, ob, path);
    var b := BoundChanges(ctx, oa, ob, path, keys.bounds);
    var f := FixedChanges(ctx, oa, ob, path, keys.fixedKeys);
    var d := AdditionalChanges(ctx, oa, ob, path);
    NoBreakingParts(m + t + e + c + b + f, d);
    NoBreakingParts(m + t + e + c + b, f);
    NoBreakingParts(m + t + e + c, b);
    NoBreakingParts(m + t + e, c);
    NoBreakingParts(m + t, e);
    NoBreakingParts(m, t);
  }

  /** What is required of a value goes on holding: a required name is declared, so the walk compared it. */
  lemma RequiredLoosens(ctx: Ctx, oa: map<string, Json>, ob: map<string, Json>, path: seq<Step>, depth: nat, v: Json)
    requires depth <= MAX_DEPTH
    requires RequiredWellFormed(oa) && RequiredWellFormed(ob)
    requires NoBreaking(PropertyChanges(ctx, oa, ob, path, depth, Sorted(Properties(oa).Keys)))
    requires NoBreaking(AddedChanges(ctx, oa, ob, path, Sorted(Properties(ob).Keys)))
    requires RequiredOk(Source(ctx.direction, oa, ob), v)
    ensures RequiredOk(Target(ctx.direction, oa, ob), v)
  {
    hide WalkChanges, PropertyChanges, AddedChanges;
    var (s, t) := (Source(ctx.direction, oa, ob), Target(ctx.direction, oa, ob));
    if v.Object? && "required" in t && t["required"].Array? {
      forall r | String(r) in t["required"].items ensures r in v.fields {
        RequiredNameStays(ctx, oa, ob, path, depth, r);
        PlainNameIsFound(s, r);
      }
    }
  }

  lemma RemovedIsInput(ctx: Ctx, oa: map<string, Json>, ob: map<string, Json>, path: seq<Step>, depth: nat,
                       name: string)
    requires depth <= MAX_DEPTH
    requires name in Properties(oa) && name !in Properties(ob)
    requires NoBreaking(PropertyChange(ctx, oa, ob, path, depth, name))
    ensures ctx.direction.Input? && !Forbids(ob)
  {
    var gone := At(ctx, RemovedSeverity(ctx.direction, ob), path + [Property(name)]);
    assert gone in PropertyChange(ctx, oa, ob, path, depth, name);
  }

  lemma AddedIsOptional(ctx: Ctx, oa: map<string, Json>, ob: map<string, Json>, path: seq<Step>, name: string)
    requires name in Properties(ob) && name !in Properties(oa)
    requires NoBreaking(AddedChange(ctx, oa, ob, path, name))
    ensures ctx.direction.Output? || !Requires(ob, name)
  {
    var added := At(ctx, AddedSeverity(ctx.direction, Requires(ob, name)), path + [Property(name)]);
    assert added in AddedChange(ctx, oa, ob, path, name);
  }

  lemma RequiredNameStays(ctx: Ctx, oa: map<string, Json>, ob: map<string, Json>, path: seq<Step>, depth: nat,
                          r: string)
    requires depth <= MAX_DEPTH
    requires RequiredWellFormed(oa) && RequiredWellFormed(ob)
    requires NoBreaking(PropertyChanges(ctx, oa, ob, path, depth, Sorted(Properties(oa).Keys)))
    requires NoBreaking(AddedChanges(ctx, oa, ob, path, Sorted(Properties(ob).Keys)))
    requires "required" in Target(ctx.direction, oa, ob) && String(r) in Target(ctx.direction, oa, ob)["required"].items
    ensures Plain(r) && Requires(Source(ctx.direction, oa, ob), r)
  {
    hide WalkChanges, PropertyChanges, AddedChanges, Plain;
    var t := Target(ctx.direction, oa, ob);
    assert String(r).s == r;
    PlainNameIsFound(t, r);
    if r in Properties(oa) {
      PropertyOf(ctx, oa, ob, path, depth, Sorted(Properties(oa).Keys), r);
      if r in Properties(ob) {
        var here := path + [Property(r)];
        NoBreakingParts(RequiredChanges(ctx, oa, ob, here, r),
                        WalkChanges(ctx, Properties(oa)[r], Properties(ob)[r], here, depth + 1));
        assert Requires(Source(ctx.direction, oa, ob), r)
            || At(ctx, Breaking, here) in RequiredChanges(ctx, oa, ob, here, r);
      } else {
        RemovedIsInput(ctx, oa, ob, path, depth, r);
      }
    } else {
      AddedOf(ctx, oa, ob, path, Sorted(Properties(ob).Keys), r);
      AddedIsOptional(ctx, oa, ob, path, r);
    }
  }

  // --- Soundness ---

  lemma NoReference(root: Json, s: Json, depth: nat)
    requires Covered(s, depth)
    ensures Resolved(root, s, HopsAt(depth)) == s
  {
  }

  /** What is known of two different schemas when nothing breaking is reported. */
  lemma DifferingNodes(ctx: Ctx, a: Json, b: Json, path: seq<Step>, depth: nat)
    requires Covered(a, depth) && Covered(b, depth) && a != b
    requires NoBreaking(WalkChanges(ctx, a, b, path, depth))
    ensures a.Object? && b.Object?
    ensures NoBreaking(NodeChanges(ctx, KEYWORDS, a.fields, b.fields, path, depth))
  {
    hide NodeChanges, Covered;
    assert depth <= MAX_DEPTH by { CoveredDepth(a, depth); }
    NoReference(ctx.rootA, a, depth);
    NoReference(ctx.rootB, b, depth);
    assert (a.Object? && b.Object?) || At(ctx, Breaking, path) in WalkChanges(ctx, a, b, path, depth);
  }

  lemma CoveredDepth(s: Json, depth: nat)
    requires Covered(s, depth)
    ensures depth <= MAX_DEPTH
  {
  }

  lemma KeywordsStayOk(ctx: Ctx, env: Env, oa: map<string, Json>, ob: map<string, Json>, path: seq<Step>, depth: nat,
                       v: Json)
    requires depth <= MAX_DEPTH
    requires NodeWellFormed(oa) && NodeWellFormed(ob) && NodesMatch(oa, ob)
    requires NoBreaking(NodeChanges(ctx, KEYWORDS, oa, ob, path, depth))
    requires KeywordsOk(env, Source(ctx.direction, oa, ob), v)
    ensures KeywordsOk(env, Target(ctx.direction, oa, ob), v)
    ensures Rest(oa) == Rest(ob)
  {
    hide NodeChanges, KeywordChanges, TypeChanges, EnumChanges, ConstChanges, BoundChanges, FixedChanges,
      PropertyChanges, AddedChanges, UnknownChanges, TypesRead, EnumWellFormed, RequiredWellFormed,
      BranchesWellFormed, TypeOk, EnumOk, BoundsOk, FixedOk, RequiredOk, Rest, Sorted, Properties,
      Keywords.Handled, SameLength;
    var (s, t) := (Source(ctx.direction, oa, ob), Target(ctx.direction, oa, ob));
    NodeParts(ctx, KEYWORDS, oa, ob, path, depth);
    KeywordParts(ctx, KEYWORDS, oa, ob, path);
    assert TypeOk(t, v) by { TypeLoosens(ctx, oa, ob, path, v); }
    assert EnumOk(t, v) by { EnumLoosens(ctx, oa, ob, path, v); }
    ConstIsEqual(ctx, oa, ob, path);
    assert BoundsOk(t, v) by { BoundsStayOk(ctx, oa, ob, path, v); }
    FixedAllStayOk(ctx, env, oa, ob, path, v);
    assert RequiredOk(t, v) by { RequiredLoosens(ctx, oa, ob, path, depth, v); }
    RestIsEqual(ctx, oa, ob, path);
  }

  lemma FixedAllStayOk(ctx: Ctx, env: Env, oa: map<string, Json>, ob: map<string, Json>, path: seq<Step>, v: Json)
    requires NoBreaking(FixedChanges(ctx, oa, ob, path, KEYWORDS.fixedKeys))
    requires KeywordsOk(env, Source(ctx.direction, oa, ob), v)
    ensures FixedOk(env, Target(ctx.direction, oa, ob), v, "pattern")
    ensures FixedOk(env, Target(ctx.direction, oa, ob), v, "format")
    ensures FixedOk(env, Target(ctx.direction, oa, ob), v, "multipleOf")
    ensures FixedOk(env, Target(ctx.direction, oa, ob), v, "uniqueItems")
  {
    hide FixedChanges, FixedOk;
    var keys := KEYWORDS.fixedKeys;
    assert keys[0] == "pattern" && keys[1] == "format" && keys[2] == "multipleOf" && keys[3] == "uniqueItems";
    FixedStayOk(ctx, env, oa, ob, path, v, "pattern");
    FixedStayOk(ctx, env, oa, ob, path, v, "format");
    FixedStayOk(ctx, env, oa, ob, path, v, "multipleOf");
    FixedStayOk(ctx, env, oa, ob, path, v, "uniqueItems");
  }

  lemma ConstIsEqual(ctx: Ctx, oa: map<string, Json>, ob: map<string, Json>, path: seq<Step>)
    requires NoBreaking(ConstChanges(ctx, oa, ob, path))
    ensures Get(oa, "const") == Get(ob, "const")
  {
    assert Get(oa, "const") == Get(ob, "const")
        || At(ctx, Breaking, path + [Key("const")]) in ConstChanges(ctx, oa, ob, path);
  }

  lemma ForbidsOnlyLoosens(ctx: Ctx, oa: map<string, Json>, ob: map<string, Json>, path: seq<Step>)
    requires NoBreaking(AdditionalChanges(ctx, oa, ob, path))
    ensures Forbids(Target(ctx.direction, oa, ob)) ==> Forbids(Source(ctx.direction, oa, ob))
  {
    assert Forbids(oa) == Forbids(ob)
        || At(ctx, if Forbids(ob) then ctx.direction.Tighten() else ctx.direction.Loosen(),
              path + [Key("additionalProperties")]) in AdditionalChanges(ctx, oa, ob, path);
  }

  /** No property that `b` forbids beside its own is one `a` declares. */
  lemma ForbiddenIsUndeclared(ctx: Ctx, oa: map<string, Json>, ob: map<string, Json>, path: seq<Step>, depth: nat,
                              n: string)
    requires depth <= MAX_DEPTH && Forbids(ob) && n !in Properties(ob)
    requires NoBreaking(PropertyChanges(ctx, oa, ob, path, depth, Sorted(Properties(oa).Keys)))
    ensures n !in Properties(oa)
  {
    hide PropertyChanges, PropertyChange, Properties, Sorted;
    if n in Properties(oa) {
      PropertyOf(ctx, oa, ob, path, depth, Sorted(Properties(oa).Keys), n);
      RemovedIsInput(ctx, oa, ob, path, depth, n);
    }
  }

  lemma NodeIsQuiet(ctx: Ctx, oa: map<string, Json>, ob: map<string, Json>, path: seq<Step>, depth: nat)
    requires depth <= MAX_DEPTH && NoBreaking(NodeChanges(ctx, KEYWORDS, oa, ob, path, depth))
    ensures NoBreaking(AdditionalChanges(ctx, oa, ob, path))
    ensures NoBreaking(PropertyChanges(ctx, oa, ob, path, depth, Sorted(Properties(oa).Keys)))
  {
    hide NodeChanges, KeywordChanges, PropertyChanges, AdditionalChanges, Sorted, Properties, NoBreaking;
    NodeParts(ctx, KEYWORDS, oa, ob, path, depth);
    KeywordParts(ctx, KEYWORDS, oa, ob, path);
  }

  lemma ExtrasStayOk(ctx: Ctx, env: Env, a: Json, b: Json, path: seq<Step>, depth: nat, v: Json)
    requires depth <= MAX_DEPTH
    requires a.Object? && b.Object? && NodeWellFormed(a.fields) && NodeWellFormed(b.fields)
    requires Rest(a.fields) == Rest(b.fields)
    requires NoBreaking(NodeChanges(ctx, KEYWORDS, a.fields, b.fields, path, depth))
    requires ExtrasOk(env, SourceExtras(ctx.direction, b), Source(ctx.direction, a, b), v)
    ensures ExtrasOk(env, TargetExtras(ctx.direction), Target(ctx.direction, a, b), v)
  {
    hide NodeChanges, PropertyChanges, AdditionalChanges, Rest, Sorted, NoBreaking;
    var (oa, ob) := (a.fields, b.fields);
    NodeIsQuiet(ctx, oa, ob, path, depth);
    ForbidsOnlyLoosens(ctx, oa, ob, path);
    if ctx.direction.Input? && v.Object? && Forbids(ob) {
      forall n | n in v.fields && IsExtra(env, ob, n) ensures IsExtra(env, oa, n) {
        ForbiddenIsUndeclared(ctx, oa, ob, path, depth, n);
      }
    }
  }

  /** What is known of a property on both sides when nothing breaking was found. */
  lemma PropertyIsCompared(ctx: Ctx, a: Json, b: Json, path: seq<Step>, depth: nat, n: string)
    requires Covered(a, depth) && Covered(b, depth) && Matched(a, b)
    requires a.Object? && b.Object? && n in Properties(a.fields)
    requires NoBreaking(NodeChanges(ctx, KEYWORDS, a.fields, b.fields, path, depth))
    ensures n !in Properties(b.fields) ==> ctx.direction.Input?
    ensures n in Properties(b.fields) ==>
              var (x, y) := (Properties(a.fields)[n], Properties(b.fields)[n]);
              && NoBreaking(WalkChanges(ctx, x, y, path + [Property(n)], depth + 1))
              && Covered(x, depth + 1) && Covered(y, depth + 1) && Matched(x, y)
  {
    hide NodeChanges, KeywordChanges, PropertyChanges, RequiredChanges, WalkChanges, NodeWellFormed, NodesMatch, Closed,
      Sorted;
    var (oa, ob) := (a.fields, b.fields);
    NodeParts(ctx, KEYWORDS, oa, ob, path, depth);
    PropertyOf(ctx, oa, ob, path, depth, Sorted(Properties(oa).Keys), n);
    if n in Properties(ob) {
      var here := path + [Property(n)];
      NoBreakingParts(RequiredChanges(ctx, oa, ob, here, n),
                      WalkChanges(ctx, Properties(oa)[n], Properties(ob)[n], here, depth + 1));
    } else {
      RemovedIsInput(ctx, oa, ob, path, depth, n);
    }
  }

  lemma {:induction false} PropertiesStayOk(ctx: Ctx, env: Env, a: Json, b: Json, path: seq<Step>, depth: nat, v: Json)
    requires Covered(a, depth) && Covered(b, depth) && Matched(a, b)
    requires a.Object? && b.Object?
    requires NoBreaking(NodeChanges(ctx, KEYWORDS, a.fields, b.fields, path, depth))
    requires NamesOk(SourceExtras(ctx.direction, b), Source(ctx.direction, a, b).fields, v)
    requires PropertiesOk(env, SourceExtras(ctx.direction, b), Source(ctx.direction, a, b), v)
    ensures PropertiesOk(env, TargetExtras(ctx.direction), Target(ctx.direction, a, b), v)
    decreases a, 0
  {
    hide NodeChanges, WalkChanges, Covered, Matched, Accepts, Properties;
    var (oa, ob) := (a.fields, b.fields);
    var p := Properties(Target(ctx.direction, oa, ob));
    if v.Object? {
      forall n | n in p && n in v.fields
        ensures Accepts(env, TargetExtras(ctx.direction).BelowProperty(n), p[n], v.fields[n])
      {
        assert n in Properties(oa);
        PropertyIsCompared(ctx, a, b, path, depth, n);
        PropertyShrinks(a, n);
        Sound(ctx, env, Properties(oa)[n], Properties(ob)[n], path + [Property(n)], depth + 1, v.fields[n]);
      }
    }
  }

  lemma PropertyShrinks(a: Json, n: string)
    requires a.Object? && n in Properties(a.fields)
    ensures Properties(a.fields)[n] < a
  {
  }

  lemma ItemsOnBoth(ctx: Ctx, oa: map<string, Json>, ob: map<string, Json>, path: seq<Step>, depth: nat)
    requires depth <= MAX_DEPTH
    requires NoBreaking(ItemsChanges(ctx, oa, ob, path, depth))
    ensures "items" in oa <==> "items" in ob
    ensures "items" in oa ==> NoBreaking(WalkChanges(ctx, oa["items"], ob["items"], path + [Key("items")], depth + 1))
  {
    hide WalkChanges;
    var changes := ItemsChanges(ctx, oa, ob, path, depth);
    assert ("items" in oa <==> "items" in ob) || At(ctx, Breaking, path + [Key("items")]) in changes;
  }

  lemma {:induction false} ItemsStayOk(ctx: Ctx, env: Env, a: Json, b: Json, path: seq<Step>, depth: nat, v: Json)
    requires Covered(a, depth) && Covered(b, depth) && Matched(a, b)
    requires a.Object? && b.Object? && Rest(a.fields) == Rest(b.fields)
    requires NoBreaking(NodeChanges(ctx, KEYWORDS, a.fields, b.fields, path, depth))
    requires ItemsOk(env, SourceExtras(ctx.direction, b), Source(ctx.direction, a, b), v)
    ensures ItemsOk(env, TargetExtras(ctx.direction), Target(ctx.direction, a, b), v)
    decreases a, 0
  {
    hide NodeChanges, KeywordChanges, PropertyChanges, AddedChanges, BranchKeyChanges, UnknownChanges, ItemsChanges,
      WalkChanges, NodeWellFormed, NodesMatch, Closed, Accepts, Rest, Keywords.Handled;
    var (oa, ob) := (a.fields, b.fields);
    NodeParts(ctx, KEYWORDS, oa, ob, path, depth);
    var here := path + [Key("items")];
    ItemsOnBoth(ctx, oa, ob, path, depth);
    if v.Array? && "items" in oa {
      forall i | env.skips(Rest(oa)) <= i < |v.items|
        ensures Accepts(env, TargetExtras(ctx.direction).BelowItems(), Target(ctx.direction, oa, ob)["items"],
                        v.items[i])
      {
        Sound(ctx, env, oa["items"], ob["items"], here, depth + 1, v.items[i]);
      }
    }
  }

  lemma BranchesOnBoth(ctx: Ctx, oa: map<string, Json>, ob: map<string, Json>, path: seq<Step>, depth: nat, key: string)
    requires depth <= MAX_DEPTH
    requires NoBreaking(BranchKeyChange(ctx, oa, ob, path, depth, key))
    ensures Branches(oa, key).Some? <==> Branches(ob, key).Some?
  {
    hide BranchChanges;
    var changes := BranchKeyChange(ctx, oa, ob, path, depth, key);
    assert (Branches(oa, key).Some? <==> Branches(ob, key).Some?) || At(ctx, Breaking, path + [Key(key)]) in changes;
  }

  /** The branches of `key` were compared one by one, and nothing breaking was found in any. */
  lemma BranchesCompared(ctx: Ctx, oa: map<string, Json>, ob: map<string, Json>, path: seq<Step>, depth: nat,
                         key: string)
    requires depth <= MAX_DEPTH && key in KEYWORDS.branches
    requires SameLength(oa, ob, key)
    requires NoBreaking(NodeChanges(ctx, KEYWORDS, oa, ob, path, depth))
    ensures Branches(oa, key).Some? <==> Branches(ob, key).Some?
    ensures Branches(oa, key).Some? ==>
              forall i :: 0 <= i < |oa[key].items| ==>
                NoBreaking(WalkChanges(ctx, oa[key].items[i], ob[key].items[i], path + [Branch(key, i)], depth + 1))
  {
    hide NodeChanges, WalkChanges, BranchChanges, BranchKeyChanges;
    NodeParts(ctx, KEYWORDS, oa, ob, path, depth);
    BranchKeyOf(ctx, oa, ob, path, depth, KEYWORDS.branches, key);
    BranchesOnBoth(ctx, oa, ob, path, depth, key);
    if Branches(oa, key).Some? {
      var (la, lb) := (oa[key].items, ob[key].items);
      forall i | 0 <= i < |la| ensures NoBreaking(WalkChanges(ctx, la[i], lb[i], path + [Branch(key, i)], depth + 1)) {
        BranchOf(ctx, la, lb, key, path, depth, 0, i);
      }
    }
  }

  lemma {:induction false} AnyStaysOk(ctx: Ctx, env: Env, a: Json, b: Json, path: seq<Step>, depth: nat, v: Json)
    requires Covered(a, depth) && Covered(b, depth) && Matched(a, b)
    requires a.Object? && b.Object?
    requires NoBreaking(NodeChanges(ctx, KEYWORDS, a.fields, b.fields, path, depth))
    requires AnyOk(env, SourceExtras(ctx.direction, b), Source(ctx.direction, a, b), v)
    ensures AnyOk(env, TargetExtras(ctx.direction), Target(ctx.direction, a, b), v)
    decreases a, 0
  {
    hide NodeChanges, WalkChanges, NodeWellFormed, Closed, Accepts;
    var (oa, ob) := (a.fields, b.fields);
    assert KEYWORDS.branches[0] == "anyOf";
    BranchesCompared(ctx, oa, ob, path, depth, "anyOf");
    if Branches(oa, "anyOf").Some? {
      var l := Source(ctx.direction, a, b).fields["anyOf"].items;
      var i :| 0 <= i < |l| && Accepts(env, SourceExtras(ctx.direction, b).BelowBranch("anyOf", i), l[i], v);
      assert oa["anyOf"].items[i] in oa["anyOf"].items && ob["anyOf"].items[i] in ob["anyOf"].items;
      Sound(ctx, env, oa["anyOf"].items[i], ob["anyOf"].items[i], path + [Branch("anyOf", i)], depth + 1, v);
    }
  }

  lemma {:induction false} AllStaysOk(ctx: Ctx, env: Env, a: Json, b: Json, path: seq<Step>, depth: nat, v: Json)
    requires Covered(a, depth) && Covered(b, depth) && Matched(a, b)
    requires a.Object? && b.Object?
    requires NoBreaking(NodeChanges(ctx, KEYWORDS, a.fields, b.fields, path, depth))
    requires AllOk(env, SourceExtras(ctx.direction, b), Source(ctx.direction, a, b), v)
    ensures AllOk(env, TargetExtras(ctx.direction), Target(ctx.direction, a, b), v)
    decreases a, 0
  {
    hide NodeChanges, WalkChanges, NodeWellFormed, Closed, Accepts;
    var (oa, ob) := (a.fields, b.fields);
    assert KEYWORDS.branches[2] == "allOf";
    BranchesCompared(ctx, oa, ob, path, depth, "allOf");
    if Branches(oa, "allOf").Some? {
      forall i | 0 <= i < |oa["allOf"].items|
        ensures Accepts(env, TargetExtras(ctx.direction).BelowBranch("allOf", i),
                        Target(ctx.direction, oa, ob)["allOf"].items[i], v)
      {
        assert oa["allOf"].items[i] in oa["allOf"].items && ob["allOf"].items[i] in ob["allOf"].items;
        Sound(ctx, env, oa["allOf"].items[i], ob["allOf"].items[i], path + [Branch("allOf", i)], depth + 1, v);
      }
    }
  }

  /** The induction behind both theorems, over every keyword at once. */
  lemma {:induction false} Sound(ctx: Ctx, env: Env, a: Json, b: Json, path: seq<Step>, depth: nat, v: Json)
    requires Covered(a, depth) && Covered(b, depth) && Matched(a, b)
    requires NoBreaking(WalkChanges(ctx, a, b, path, depth))
    requires Accepts(env, SourceExtras(ctx.direction, b), Source(ctx.direction, a, b), v)
    ensures Accepts(env, TargetExtras(ctx.direction), Target(ctx.direction, a, b), v)
    decreases a, 1
  {
    hide NodeChanges, WalkChanges, NodeWellFormed, KeywordsOk, ExtrasOk, PropertiesOk, ItemsOk, AnyOk, AllOk, Rest,
      SameLength;
    if a == b {
      Weaken(env, SourceExtras(ctx.direction, b), TargetExtras(ctx.direction), a, v);
    } else {
      DifferingNodes(ctx, a, b, path, depth);
      KeywordsStayOk(ctx, env, a.fields, b.fields, path, depth, v);
      ExtrasStayOk(ctx, env, a, b, path, depth, v);
      PropertiesStayOk(ctx, env, a, b, path, depth, v);
      ItemsStayOk(ctx, env, a, b, path, depth, v);
      AnyStaysOk(ctx, env, a, b, path, depth, v);
      AllStaysOk(ctx, env, a, b, path, depth, v);
      OneStaysOk(env, a, b, v, ctx.direction);
    }
  }

  lemma OneStaysOk(env: Env, a: Json, b: Json, v: Json, direction: Direction)
    requires a.Object? && b.Object? && NodesMatch(a.fields, b.fields)
    requires OneOk(env, Source(direction, a, b), v)
    ensures OneOk(env, Target(direction, a, b), v)
  {
    hide Accepts;
    var l := Branches(a.fields, "oneOf");
    assert l == Branches(b.fields, "oneOf");
    if l.Some? {
      var i :| 0 <= i < |l.value| && OnlyBranch(env, Source(direction, a, b), v, i);
      assert OnlyBranch(env, Target(direction, a, b), v, i);
    }
  }

  /** Input: a value accepted before, which uses no property the new schema newly declares, is accepted after. */
  lemma InputIsSound(env: Env, a: Json, b: Json, kind: ItemKind, name: string, path: seq<Step>, v: Json)
    requires Covered(a, 0) && Covered(b, 0) && Matched(a, b)
    requires NoBreaking(CompareChanges(a, b, Input, kind, name, path))
    requires Accepts(env, Avoiding(b), a, v)
    ensures Accepts(env, AsWritten, b, v)
  {
    hide WalkChanges, Covered, Matched, Accepts;
    var ctx := Ctx(a, b, Input, kind, name);
    if a == b {
      Weaken(env, Avoiding(b), AsWritten, a, v);
    } else {
      Sound(ctx, env, a, b, path, 0, v);
    }
  }

  /** Input: so is a value that uses only properties the old schema declares, at each level. */
  lemma DeclaredInputIsSound(env: Env, a: Json, b: Json, kind: ItemKind, name: string, path: seq<Step>, v: Json)
    requires Covered(a, 0) && Covered(b, 0) && Matched(a, b)
    requires NoBreaking(CompareChanges(a, b, Input, kind, name, path))
    requires Accepts(env, Declared, a, v)
    ensures Accepts(env, AsWritten, b, v)
  {
    hide CompareChanges, Covered, Matched, Accepts;
    Weaken(env, Declared, Avoiding(b), a, v);
    InputIsSound(env, a, b, kind, name, path, v);
  }

  /** Output: a value the new schema accepts is accepted by the old one, read by a client that ignores
      properties the old one does not declare. */
  lemma OutputIsSound(env: Env, a: Json, b: Json, kind: ItemKind, name: string, path: seq<Step>, v: Json)
    requires Covered(a, 0) && Covered(b, 0) && Matched(a, b)
    requires NoBreaking(CompareChanges(a, b, Output, kind, name, path))
    requires Accepts(env, AsWritten, b, v)
    ensures Accepts(env, Ignored, a, v)
  {
    hide WalkChanges, Covered, Matched, Accepts;
    var ctx := Ctx(a, b, Output, kind, name);
    if a == b {
      Weaken(env, AsWritten, Ignored, a, v);
    } else {
      Sound(ctx, env, a, b, path, 0, v);
    }
  }
}
