/** What a JSON Schema accepts: sections 6.1 to 6.5 of JSON Schema Validation 2020-12
    and sections 10.2.1 and 10.3 of JSON Schema Core 2020-12. */
module SchemaMeaning {
  import opened Json
  import opened SchemaDiff

  /** What the keywords the comparison does not look into mean, fixed by their values. */
  datatype Env = Env(
    holds: (string, Json, Json) -> bool,            // `pattern`, `format`, `multipleOf`, `uniqueItems`
    others: (map<string, Json>, Json) -> bool,      // the keywords no rule covers, taken together
    covers: (map<string, Json>, string) -> bool,    // names they take from `additionalProperties`
    skips: map<string, Json> -> nat)                // elements they take from `items`

  /** How properties a schema does not declare are treated. */
  datatype Extras =
    | AsWritten              // as `additionalProperties` says
    | Ignored                // always accepted
    | Declared               // never accepted
    | Avoiding(other: Json)  // as written, and none that `other` declares at the same place
  {
    function Below(child: Option<Json>): Extras {
      if !Avoiding? then this
      else match child
        case Some(x) => Avoiding(x)
        case None => AsWritten
    }

    function BelowProperty(name: string): Extras {
      Below(if Avoiding? && other.Object? then Get(Properties(other.fields), name) else None)
    }

    function BelowItems(): Extras {
      Below(if Avoiding? then Field(other, "items") else None)
    }

    function BelowBranch(key: string, i: nat): Extras {
      Below(if Avoiding? && other.Object? && Branches(other.fields, key).Some?
              && i < |Branches(other.fields, key).value|
            then Some(Branches(other.fields, key).value[i]) else None)
    }
  }

  /** The keywords no rule covers. */
  function Rest(o: map<string, Json>): map<string, Json> {
    map k | k in o && k !in KEYWORDS.Handled() :: o[k]
  }

  predicate Is(v: Json, t: string) {
    match v
    case Null => t == "null"
    case Bool(_) => t == "boolean"
    case Number(n) => t == "number" || (t == "integer" && n.Floor as real == n)
    case String(_) => t == "string"
    case Array(_) => t == "array"
    case Object(_) => t == "object"
  }

  ghost predicate TypeOk(o: map<string, Json>, v: Json) {
    match Get(o, "type")
    case None => true
    case Some(String(t)) => Is(v, t)
    case Some(Array(ts)) => exists t :: String(t) in ts && Is(v, t)
    case _ => false
  }

  predicate EnumOk(o: map<string, Json>, v: Json) {
    match Get(o, "enum")
    case None => true
    case Some(Array(values)) => v in values
    case _ => false
  }

  predicate AtLeast(o: map<string, Json>, key: string, x: real) {
    match Num(Get(o, key)) case Some(limit) => x >= limit case None => true
  }

  predicate AtMost(o: map<string, Json>, key: string, x: real) {
    match Num(Get(o, key)) case Some(limit) => x <= limit case None => true
  }

  predicate BoundsOk(o: map<string, Json>, v: Json) {
    match v
    case Number(n) =>
      && AtLeast(o, "minimum", n)
      && AtMost(o, "maximum", n)
      && (match Num(Get(o, "exclusiveMinimum")) case Some(limit) => n > limit case None => true)
      && (match Num(Get(o, "exclusiveMaximum")) case Some(limit) => n < limit case None => true)
    case String(s) => AtLeast(o, "minLength", |s| as real) && AtMost(o, "maxLength", |s| as real)
    case Array(items) => AtLeast(o, "minItems", |items| as real) && AtMost(o, "maxItems", |items| as real)
    case Object(fields) =>
      AtLeast(o, "minProperties", |fields| as real) && AtMost(o, "maxProperties", |fields| as real)
    case _ => true
  }

  predicate FixedOk(env: Env, o: map<string, Json>, v: Json, key: string) {
    key in o ==> env.holds(key, o[key], v)
  }

  ghost predicate RequiredOk(o: map<string, Json>, v: Json) {
    v.Object? && "required" in o && o["required"].Array? ==>
      forall r :: String(r) in o["required"].items ==> r in v.fields
  }

  /** Every keyword that looks at `v` alone. */
  ghost predicate KeywordsOk(env: Env, o: map<string, Json>, v: Json) {
    && TypeOk(o, v)
    && EnumOk(o, v)
    && ("const" in o ==> v == o["const"])
    && BoundsOk(o, v)
    && FixedOk(env, o, v, "pattern")
    && FixedOk(env, o, v, "format")
    && FixedOk(env, o, v, "multipleOf")
    && FixedOk(env, o, v, "uniqueItems")
    && RequiredOk(o, v)
    && env.others(Rest(o), v)
  }

  /** The names of `v` that `additionalProperties` decides about. */
  predicate IsExtra(env: Env, o: map<string, Json>, name: string) {
    name !in Properties(o) && !env.covers(Rest(o), name)
  }

  /** The part of `extras` that is about names alone. */
  predicate NamesOk(extras: Extras, o: map<string, Json>, v: Json) {
    v.Object? ==>
      match extras
      case AsWritten => true
      case Ignored => true
      case Declared => forall n :: n in v.fields ==> n in Properties(o)
      case Avoiding(other) =>
        other.Object? ==> forall n :: n in v.fields && n in Properties(other.fields) ==> n in Properties(o)
  }

  /** Whether schema `s` accepts `v`. */
  ghost predicate Accepts(env: Env, extras: Extras, s: Json, v: Json)
    decreases s, 2
  {
    match s
    case Bool(b) => b
    case Object(o) =>
      && KeywordsOk(env, o, v)
      && NamesOk(extras, o, v)
      && ExtrasOk(env, extras, s, v)
      && PropertiesOk(env, extras, s, v)
      && ItemsOk(env, extras, s, v)
      && AnyOk(env, extras, s, v)
      && AllOk(env, extras, s, v)
      && OneOk(env, s, v)
    case _ => false
  }

  ghost predicate ExtrasOk(env: Env, extras: Extras, s: Json, v: Json)
    requires s.Object?
    decreases s, 0
  {
    var o := s.fields;
    v.Object? && "additionalProperties" in o && !extras.Ignored? ==>
      forall n :: n in v.fields && IsExtra(env, o, n) ==>
        Accepts(env, AsWritten, o["additionalProperties"], v.fields[n])
  }

  ghost predicate PropertiesOk(env: Env, extras: Extras, s: Json, v: Json)
    requires s.Object?
    decreases s, 0
  {
    var p := Properties(s.fields);
    v.Object? ==>
      forall n :: n in p && n in v.fields ==> Accepts(env, extras.BelowProperty(n), p[n], v.fields[n])
  }

  ghost predicate ItemsOk(env: Env, extras: Extras, s: Json, v: Json)
    requires s.Object?
    decreases s, 0
  {
    var o := s.fields;
    v.Array? && "items" in o ==>
      forall i :: env.skips(Rest(o)) <= i < |v.items| ==> Accepts(env, extras.BelowItems(), o["items"], v.items[i])
  }

  ghost predicate AnyOk(env: Env, extras: Extras, s: Json, v: Json)
    requires s.Object?
    decreases s, 0
  {
    var l := Branches(s.fields, "anyOf");
    l.Some? ==>
      exists i :: 0 <= i < |l.value| && Accepts(env, extras.BelowBranch("anyOf", i), l.value[i], v)
  }

  ghost predicate AllOk(env: Env, extras: Extras, s: Json, v: Json)
    requires s.Object?
    decreases s, 0
  {
    var l := Branches(s.fields, "allOf");
    l.Some? ==>
      forall i :: 0 <= i < |l.value| ==> Accepts(env, extras.BelowBranch("allOf", i), l.value[i], v)
  }

  /** Exactly one branch accepts; extras are read as written. */
  ghost predicate OneOk(env: Env, s: Json, v: Json)
    requires s.Object?
    decreases s, 1
  {
    var l := Branches(s.fields, "oneOf");
    l.Some? ==> exists i :: 0 <= i < |l.value| && OnlyBranch(env, s, v, i)
  }

  ghost predicate OnlyBranch(env: Env, s: Json, v: Json, i: nat)
    requires s.Object? && Branches(s.fields, "oneOf").Some? && i < |Branches(s.fields, "oneOf").value|
    decreases s, 0
  {
    var l := Branches(s.fields, "oneOf").value;
    forall j :: 0 <= j < |l| ==> (Accepts(env, AsWritten, l[j], v) <==> j == i)
  }

  /** Every value accepted under `x` is accepted under `y`. */
  predicate Weaker(x: Extras, y: Extras) {
    x == y || x.Declared? || y.Ignored? || (x.Avoiding? && y.AsWritten?)
  }

  lemma {:induction false} Weaken(env: Env, x: Extras, y: Extras, s: Json, v: Json)
    requires Weaker(x, y)
    requires Accepts(env, x, s, v)
    ensures Accepts(env, y, s, v)
    decreases s, 2
  {
    hide KeywordsOk, OneOk;
    if s.Object? {
      assert ExtrasOk(env, y, s, v);
      WeakenProperties(env, x, y, s, v);
      WeakenItems(env, x, y, s, v);
      WeakenBranches(env, x, y, s, v);
    }
  }

  lemma {:induction false} WeakenProperties(env: Env, x: Extras, y: Extras, s: Json, v: Json)
    requires s.Object? && Weaker(x, y) && PropertiesOk(env, x, s, v)
    ensures PropertiesOk(env, y, s, v)
    decreases s, 0
  {
    hide Accepts;
    var p := Properties(s.fields);
    if v.Object? {
      forall n | n in p && n in v.fields
        ensures Accepts(env, y.BelowProperty(n), p[n], v.fields[n])
      {
        Weaken(env, x.BelowProperty(n), y.BelowProperty(n), p[n], v.fields[n]);
      }
    }
  }

  lemma {:induction false} WeakenItems(env: Env, x: Extras, y: Extras, s: Json, v: Json)
    requires s.Object? && Weaker(x, y) && ItemsOk(env, x, s, v)
    ensures ItemsOk(env, y, s, v)
    decreases s, 0
  {
    hide Accepts;
    var o := s.fields;
    if v.Array? && "items" in o {
      forall i | env.skips(Rest(o)) <= i < |v.items|
        ensures Accepts(env, y.BelowItems(), o["items"], v.items[i])
      {
        Weaken(env, x.BelowItems(), y.BelowItems(), o["items"], v.items[i]);
      }
    }
  }

  lemma {:induction false} WeakenBranches(env: Env, x: Extras, y: Extras, s: Json, v: Json)
    requires s.Object? && Weaker(x, y) && AnyOk(env, x, s, v) && AllOk(env, x, s, v)
    ensures AnyOk(env, y, s, v) && AllOk(env, y, s, v)
    decreases s, 0
  {
    hide Accepts;
    var any := Branches(s.fields, "anyOf");
    if any.Some? {
      var i :| 0 <= i < |any.value| && Accepts(env, x.BelowBranch("anyOf", i), any.value[i], v);
      Weaken(env, x.BelowBranch("anyOf", i), y.BelowBranch("anyOf", i), any.value[i], v);
    }
    var all := Branches(s.fields, "allOf");
    if all.Some? {
      forall i | 0 <= i < |all.value|
        ensures Accepts(env, y.BelowBranch("allOf", i), all.value[i], v)
      {
        Weaken(env, x.BelowBranch("allOf", i), y.BelowBranch("allOf", i), all.value[i], v);
      }
    }
  }
}
