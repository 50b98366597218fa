/** Direction-aware comparison of two JSON Schemas. */
module SchemaDiff {
  import opened Json
  import opened Changes
  import opened Pointer

  /** An input schema is for the arguments of a call, an output schema for its result. */
  datatype Direction = Input | Output {
    function Tighten(): Severity { if Input? then Breaking else Compatible }
    function Loosen(): Severity { if Input? then Compatible else Breaking }
  }

  datatype Ctx = Ctx(rootA: Json, rootB: Json, direction: Direction, kind: ItemKind, name: string)

  /** The keywords `walk` goes through in a loop. */
  datatype Keywords = Keywords(
    metadata: seq<string>,
    bounds: seq<(string, bool)>,  // each bound, and whether a higher value is stricter
    fixedKeys: seq<string>,
    branches: seq<string>)
  {
    /** The keywords with a rule before `properties`. */
    function Simple(): set<string> {
      Elements(metadata) + {"type"} + {"enum", "const"} + BoundNames(bounds) + Elements(fixedKeys)
      + {"additionalProperties"}
    }

    /** Every keyword with a rule. */
    function Handled(): set<string> {
      Simple() + {"properties", "required"} + {"items"} + Elements(branches) + {"$defs", "definitions", "$ref"}
    }
  }

  const KEYWORDS := Keywords(
    ["title", "description", "default", "examples", "deprecated",
     "$comment", "$schema", "$id", "readOnly", "writeOnly"],
    [("minimum", true), ("exclusiveMinimum", true), ("minLength", true),
     ("minItems", true), ("minProperties", true),
     ("maximum", false), ("exclusiveMaximum", false), ("maxLength", false),
     ("maxItems", false), ("maxProperties", false)],
    ["pattern", "format", "multipleOf", "uniqueItems"],
    ["anyOf", "oneOf", "allOf"])

  function Elements<T>(s: seq<T>): set<T> {
    set x | x in s
  }

  function BoundNames(bounds: seq<(string, bool)>): set<string> {
    set b | b in bounds :: b.0
  }

  // --- Reading keywords ---

  /** A value as printed. Strings are escaped and quoted; other values print injectively. */
  datatype Text = Quoted(body: string) | Printed(v: Json)

  function HexDigit(n: nat): char
    requires n < 16
  {
    "0123456789abcdef"[n]
  }

  function EscapeChar(c: char): string {
    if c == '"' then "\\\""
    else if c == '\\' then "\\\\"
    else if c == '\U{8}' then "\\b"
    else if c == '\t' then "\\t"
    else if c == '\n' then "\\n"
    else if c == '\U{C}' then "\\f"
    else if c == '\r' then "\\r"
    else if c < ' ' then "\\u00" + [HexDigit(c as nat / 16), HexDigit(c as nat % 16)]
    else [c]
  }

  function Escape(s: string): string {
    if s == [] then [] else EscapeChar(s[0]) + Escape(s[1..])
  }

  function TextOf(v: Json): Text {
    if v.String? then Quoted(Escape(v.s)) else Printed(v)
  }

  /** The printed elements of an array; anything else has none. */
  function SetOf(v: Option<Json>): set<Text> {
    if v.Some? && v.value.Array?
    then set x | x in v.value.items :: TextOf(x)
    else {}
  }

  /** `format!("\"{name}\"")`: quoted, but not escaped. */
  function QuotedName(name: string): Text {
    Quoted(name)
  }

  predicate IsNullAlternative(alternative: Json) {
    Field(alternative, "type") == Some(String("null"))
  }

  predicate HasNullAlternative(o: map<string, Json>, key: string) {
    key in o && o[key].Array? && exists x :: x in o[key].items && IsNullAlternative(x)
  }

  function DeclaredTypes(v: Option<Json>): set<string> {
    match v
    case Some(String(t)) => {t}
    case Some(Array(ts)) => set t | t in ts && t.String? :: t.s
    case _ => {}
  }

  function TypesOf(o: map<string, Json>): set<string> {
    DeclaredTypes(Get(o, "type"))
    + if HasNullAlternative(o, "anyOf") || HasNullAlternative(o, "oneOf") then {"null"} else {}
  }

  function Num(v: Option<Json>): Option<real> {
    match v
    case Some(Number(n)) => Some(n)
    case _ => None
  }

  predicate Forbids(o: map<string, Json>) {
    Get(o, "additionalProperties") == Some(Bool(false))
  }

  function Properties(o: map<string, Json>): map<string, Json> {
    if "properties" in o && o["properties"].Object? then o["properties"].fields else map[]
  }

  function Branches(o: map<string, Json>, key: string): Option<seq<Json>> {
    if key in o && o[key].Array? then Some(o[key].items) else None
  }

  // --- What each keyword reports ---

  function At(ctx: Ctx, severity: Severity, path: seq<Step>): Change {
    Change(severity, ctx.kind, ctx.name, path)
  }

  function MetadataChange(ctx: Ctx, oa: map<string, Json>, ob: map<string, Json>, path: seq<Step>,
                          key: string): seq<Change> {
    if Get(oa, key) != Get(ob, key) then [At(ctx, Cosmetic, path + [Key(key)])] else []
  }

  function MetadataChanges(ctx: Ctx, oa: map<string, Json>, ob: map<string, Json>, path: seq<Step>,
                           keys: seq<string>): seq<Change> {
    if keys == [] then []
    else MetadataChange(ctx, oa, ob, path, keys[0]) + MetadataChanges(ctx, oa, ob, path, keys[1..])
  }

  function TypeSeverity(direction: Direction, ta: set<string>, tb: set<string>): Severity {
    if ta == {} || tb == {} then Breaking
    else if tb >= ta then direction.Loosen()
    else if ta >= tb then direction.Tighten()
    else Breaking
  }

  function TypeChanges(ctx: Ctx, oa: map<string, Json>, ob: map<string, Json>, path: seq<Step>): seq<Change> {
    var (ta, tb) := (TypesOf(oa), TypesOf(ob));
    if ta == tb then [] else [At(ctx, TypeSeverity(ctx.direction, ta, tb), path + [Key("type")])]
  }

  function EnumChanges(ctx: Ctx, oa: map<string, Json>, ob: map<string, Json>, path: seq<Step>): seq<Change> {
    var (ea, eb) := (SetOf(Get(oa, "enum")), SetOf(Get(ob, "enum")));
    (if ea - eb != {} then [At(ctx, ctx.direction.Tighten(), path + [Key("enum")])] else [])
    + (if eb - ea != {} then [At(ctx, ctx.direction.Loosen(), path + [Key("enum")])] else [])
  }

  function ConstChanges(ctx: Ctx, oa: map<string, Json>, ob: map<string, Json>, path: seq<Step>): seq<Change> {
    if Get(oa, "const") != Get(ob, "const") then [At(ctx, Breaking, path + [Key("const")])] else []
  }

  /** Whether the bound `vb` is stricter than `va`; the two differ. */
  predicate Stricter(va: Option<real>, vb: Option<real>, higherIsStricter: bool) {
    match (va, vb)
    case (None, _) => true
    case (Some(_), None) => false
    case (Some(x), Some(y)) => (y > x) == higherIsStricter
  }

  function BoundChange(ctx: Ctx, oa: map<string, Json>, ob: map<string, Json>, path: seq<Step>,
                       bound: (string, bool)): seq<Change> {
    var (va, vb) := (Num(Get(oa, bound.0)), Num(Get(ob, bound.0)));
    if va == vb then []
    else
      [At(ctx, if Stricter(va, vb, bound.1) then ctx.direction.Tighten() else ctx.direction.Loosen(),
          path + [Key(bound.0)])]
  }

  function BoundChanges(ctx: Ctx, oa: map<string, Json>, ob: map<string, Json>, path: seq<Step>,
                        bounds: seq<(string, bool)>): seq<Change> {
    if bounds == [] then []
    else BoundChange(ctx, oa, ob, path, bounds[0]) + BoundChanges(ctx, oa, ob, path, bounds[1..])
  }

  function FixedChange(ctx: Ctx, oa: map<string, Json>, ob: map<string, Json>, path: seq<Step>,
                       key: string): seq<Change> {
    var (va, vb) := (Get(oa, key), Get(ob, key));
    if va == vb then []
    else
      var severity :=
        match (va, vb)
        case (None, Some(_)) => ctx.direction.Tighten()
        case (Some(_), None) => ctx.direction.Loosen()
        case _ => Breaking;
      [At(ctx, severity, path + [Key(key)])]
  }

  function FixedChanges(ctx: Ctx, oa: map<string, Json>, ob: map<string, Json>, path: seq<Step>,
                        keys: seq<string>): seq<Change> {
    if keys == [] then []
    else FixedChange(ctx, oa, ob, path, keys[0]) + FixedChanges(ctx, oa, ob, path, keys[1..])
  }

  function AdditionalChanges(ctx: Ctx, oa: map<string, Json>, ob: map<string, Json>, path: seq<Step>): seq<Change> {
    if Forbids(oa) == Forbids(ob) then []
    else [At(ctx, if Forbids(ob) then ctx.direction.Tighten() else ctx.direction.Loosen(),
             path + [Key("additionalProperties")])]
  }

  /** Everything reported at a node without looking below it, up to `properties`. */
  function KeywordChanges(ctx: Ctx, keys: Keywords, oa: map<string, Json>, ob: map<string, Json>,
                          path: seq<Step>): seq<Change> {
    MetadataChanges(ctx, oa, ob, path, keys.metadata)
    + TypeChanges(ctx, oa, ob, path)
    + EnumChanges(ctx, oa, ob, path)
    + ConstChanges(ctx, oa, ob, path)
    + BoundChanges(ctx, oa, ob, path, keys.bounds)
    + FixedChanges(ctx, oa, ob, path, keys.fixedKeys)
    + AdditionalChanges(ctx, oa, ob, path)
  }

  predicate Requires(o: map<string, Json>, name: string) {
    QuotedName(name) in SetOf(Get(o, "required"))
  }

  function RemovedSeverity(direction: Direction, ob: map<string, Json>): Severity {
    if direction.Input? && !Forbids(ob) then Compatible else Breaking
  }

  function RequiredChanges(ctx: Ctx, oa: map<string, Json>, ob: map<string, Json>, path: seq<Step>,
                           name: string): seq<Change> {
    var (was, now) := (Requires(oa, name), Requires(ob, name));
    if !was && now then [At(ctx, ctx.direction.Tighten(), path)]
    else if was && !now then [At(ctx, ctx.direction.Loosen(), path)]
    else []
  }

  function AddedSeverity(direction: Direction, required: bool): Severity {
    if direction.Input? && required then Breaking else Compatible
  }

  /** Property `name` of `b`, when `a` does not declare it. */
  function AddedChange(ctx: Ctx, oa: map<string, Json>, ob: map<string, Json>, path: seq<Step>,
                       name: string): seq<Change> {
    if name in Properties(oa) then []
    else [At(ctx, AddedSeverity(ctx.direction, Requires(ob, name)), path + [Property(name)])]
  }

  function AddedChanges(ctx: Ctx, oa: map<string, Json>, ob: map<string, Json>, path: seq<Step>,
                        names: seq<string>): seq<Change> {
    if names == [] then []
    else AddedChange(ctx, oa, ob, path, names[0]) + AddedChanges(ctx, oa, ob, path, names[1..])
  }

  /** Keyword `key`, when no rule above covers it. */
  function UnknownChange(ctx: Ctx, oa: map<string, Json>, ob: map<string, Json>, path: seq<Step>, handled: set<string>,
                         key: string): seq<Change> {
    if key !in handled && Get(oa, key) != Get(ob, key) then [At(ctx, Breaking, path + [Key(key)])] else []
  }

  function UnknownChanges(ctx: Ctx, oa: map<string, Json>, ob: map<string, Json>, path: seq<Step>, handled: set<string>,
                          keys: seq<string>): seq<Change> {
    if keys == [] then []
    else UnknownChange(ctx, oa, ob, path, handled, keys[0]) + UnknownChanges(ctx, oa, ob, path, handled, keys[1..])
  }

  function BranchCountSeverity(direction: Direction, key: string, before: nat, after: nat): Severity {
    if key == "allOf" then (if after > before then direction.Tighten() else direction.Loosen())
    else if after > before then direction.Loosen() else direction.Tighten()
  }

  // --- What the walk reports ---

  ghost function Room(depth: nat): nat {
    if depth > MAX_DEPTH then 0 else MAX_DEPTH + 1 - depth
  }

  ghost function WalkChanges(ctx: Ctx, a: Json, b: Json, path: seq<Step>, depth: nat): seq<Change>
    decreases Room(depth), 3
  {
    if depth > MAX_DEPTH then []
    else
      var ra := Resolved(ctx.rootA, a, HopsAt(depth));
      var rb := Resolved(ctx.rootB, b, HopsAt(depth));
      if ra == rb then []
      else if !ra.Object? || !rb.Object? then [At(ctx, Breaking, path)]
      else NodeChanges(ctx, KEYWORDS, ra.fields, rb.fields, path, depth)
  }

  ghost function NodeChanges(ctx: Ctx, keys: Keywords, oa: map<string, Json>, ob: map<string, Json>, path: seq<Step>,
                             depth: nat): seq<Change>
    requires depth <= MAX_DEPTH
    decreases Room(depth), 2
  {
    KeywordChanges(ctx, keys, oa, ob, path)
    + PropertyChanges(ctx, oa, ob, path, depth, Sorted(Properties(oa).Keys))
    + AddedChanges(ctx, oa, ob, path, Sorted(Properties(ob).Keys))
    + ItemsChanges(ctx, oa, ob, path, depth)
    + BranchKeyChanges(ctx, oa, ob, path, depth, keys.branches)
    + UnknownChanges(ctx, oa, ob, path, keys.Handled(), Sorted(oa.Keys + ob.Keys))
  }

  ghost function PropertyChanges(ctx: Ctx, oa: map<string, Json>, ob: map<string, Json>, path: seq<Step>, depth: nat,
                                 names: seq<string>): seq<Change>
    requires depth <= MAX_DEPTH
    requires forall n :: n in names ==> n in Properties(oa)
    decreases Room(depth), 1, |names|
  {
    if names == [] then []
    else
      PropertyChange(ctx, oa, ob, path, depth, names[0])
      + PropertyChanges(ctx, oa, ob, path, depth, names[1..])
  }

  ghost function PropertyChange(ctx: Ctx, oa: map<string, Json>, ob: map<string, Json>, path: seq<Step>, depth: nat,
                                name: string): seq<Change>
    requires depth <= MAX_DEPTH
    requires name in Properties(oa)
    decreases Room(depth), 0
  {
    var here := path + [Property(name)];
    if name !in Properties(ob) then [At(ctx, RemovedSeverity(ctx.direction, ob), here)]
    else
      RequiredChanges(ctx, oa, ob, here, name)
      + WalkChanges(ctx, Properties(oa)[name], Properties(ob)[name], here, depth + 1)
  }

  ghost function ItemsChanges(ctx: Ctx, oa: map<string, Json>, ob: map<string, Json>, path: seq<Step>,
                              depth: nat): seq<Change>
    requires depth <= MAX_DEPTH
    decreases Room(depth), 0
  {
    var here := path + [Key("items")];
    match (Get(oa, "items"), Get(ob, "items"))
    case (Some(ia), Some(ib)) => WalkChanges(ctx, ia, ib, here, depth + 1)
    case (None, None) => []
    case _ => [At(ctx, Breaking, here)]
  }

  ghost function BranchKeyChanges(ctx: Ctx, oa: map<string, Json>, ob: map<string, Json>, path: seq<Step>, depth: nat,
                                  keys: seq<string>): seq<Change>
    requires depth <= MAX_DEPTH
    decreases Room(depth), 1, |keys|
  {
    if keys == [] then []
    else BranchKeyChange(ctx, oa, ob, path, depth, keys[0]) + BranchKeyChanges(ctx, oa, ob, path, depth, keys[1..])
  }

  ghost function BranchKeyChange(ctx: Ctx, oa: map<string, Json>, ob: map<string, Json>, path: seq<Step>, depth: nat,
                                 key: string): seq<Change>
    requires depth <= MAX_DEPTH
    decreases Room(depth), 0, 1
  {
    match (Branches(oa, key), Branches(ob, key))
    case (Some(la), Some(lb)) =>
      if |la| == |lb| then BranchChanges(ctx, la, lb, key, path, depth, 0)
      else [At(ctx, BranchCountSeverity(ctx.direction, key, |la|, |lb|), path + [Key(key)])]
    case (None, None) => []
    case _ => [At(ctx, Breaking, path + [Key(key)])]
  }

  ghost function BranchChanges(ctx: Ctx, la: seq<Json>, lb: seq<Json>, key: string, path: seq<Step>, depth: nat,
                               i: nat): seq<Change>
    requires depth <= MAX_DEPTH && |la| == |lb| && i <= |la|
    decreases Room(depth), 0, 0, |la| - i
  {
    if i == |la| then []
    else
      WalkChanges(ctx, la[i], lb[i], path + [Branch(key, i)], depth + 1)
      + BranchChanges(ctx, la, lb, key, path, depth, i + 1)
  }

  /** What `compare` appends. */
  ghost function CompareChanges(a: Json, b: Json, direction: Direction, kind: ItemKind, name: string,
                                path: seq<Step>): seq<Change> {
    if a == b then [] else WalkChanges(Ctx(a, b, direction, kind, name), a, b, path, 0)
  }

  // --- The walk ---

  method Compare(a: Json, b: Json, direction: Direction, kind: ItemKind, name: string, path: seq<Step>, out: Report)
    modifies out
    ensures out.list == old(out.list) + CompareChanges(a, b, direction, kind, name, path)
  {
    if a == b {
      return;
    }
    Walk(Ctx(a, b, direction, kind, name), a, b, path, 0, out);
  }

  method Walk(ctx: Ctx, a: Json, b: Json, path: seq<Step>, depth: nat, out: Report)
    modifies out
    ensures out.list == old(out.list) + WalkChanges(ctx, a, b, path, depth)
    decreases Room(depth), 4
  {
    if depth > MAX_DEPTH {
      return;
    }
    var ra := Resolve(ctx.rootA, a, depth);
    var rb := Resolve(ctx.rootB, b, depth);
    if ra == rb {
      return;
    }
    if !ra.Object? || !rb.Object? {
      out.Push(At(ctx, Breaking, path));
      return;
    }
    WalkNode(ctx, KEYWORDS, ra.fields, rb.fields, path, depth, out);
  }

  method WalkNode(ctx: Ctx, keys: Keywords, oa: map<string, Json>, ob: map<string, Json>, path: seq<Step>, depth: nat,
                  out: Report)
    requires depth <= MAX_DEPTH
    modifies out
    ensures out.list == old(out.list) + NodeChanges(ctx, keys, oa, ob, path, depth)
    decreases Room(depth), 3
  {
    hide KeywordChanges, PropertyChanges, AddedChanges, ItemsChanges, BranchKeyChanges, UnknownChanges, WalkChanges,
      Sorted, Properties, Elements, BoundNames, Keywords.Simple;
    ghost var start := out.list;
    var handled := WalkKeywords(ctx, keys, oa, ob, path, out);
    handled := handled + {"properties", "required"};
    WalkProperties(ctx, oa, ob, path, depth, Sorted(Properties(oa).Keys), out);
    WalkAdded(ctx, oa, ob, path, Sorted(Properties(ob).Keys), out);
    handled := handled + {"items"};
    WalkItems(ctx, oa, ob, path, depth, out);
    handled := handled + Elements(keys.branches);
    WalkBranchKeys(ctx, oa, ob, path, depth, keys.branches, out);
    handled := handled + {"$defs", "definitions", "$ref"};
    WalkUnknown(ctx, oa, ob, path, handled, Sorted(oa.Keys + ob.Keys), out);
    Chain(start, KeywordChanges(ctx, keys, oa, ob, path),
          PropertyChanges(ctx, oa, ob, path, depth, Sorted(Properties(oa).Keys)),
          AddedChanges(ctx, oa, ob, path, Sorted(Properties(ob).Keys)),
          ItemsChanges(ctx, oa, ob, path, depth),
          BranchKeyChanges(ctx, oa, ob, path, depth, keys.branches),
          UnknownChanges(ctx, oa, ob, path, handled, Sorted(oa.Keys + ob.Keys)));
  }

  lemma Chain(s: seq<Change>, k: seq<Change>, p: seq<Change>, d: seq<Change>, i: seq<Change>, b: seq<Change>,
              u: seq<Change>)
    ensures s + k + p + d + i + b + u == s + (k + p + d + i + b + u)
  {
  }

  /** The keywords before `properties`. Returns the keywords it handled. */
  method WalkKeywords(ctx: Ctx, keys: Keywords, oa: map<string, Json>, ob: map<string, Json>, path: seq<Step>,
                      out: Report) returns (handled: set<string>)
    modifies out
    ensures out.list == old(out.list) + KeywordChanges(ctx, keys, oa, ob, path)
    ensures handled == keys.Simple()
  {
    hide MetadataChanges, TypeChanges, EnumChanges, ConstChanges, BoundChanges, FixedChanges, AdditionalChanges,
      Elements, BoundNames;
    handled := WalkMetadata(ctx, oa, ob, path, keys.metadata, out);
    handled := handled + {"type"};
    WalkType(ctx, oa, ob, path, out);
    handled := handled + {"enum", "const"};
    WalkEnum(ctx, oa, ob, path, out);
    WalkConst(ctx, oa, ob, path, out);
    var bounds := WalkBounds(ctx, oa, ob, path, keys.bounds, out);
    handled := handled + bounds;
    var fixedKeys := WalkFixed(ctx, oa, ob, path, keys.fixedKeys, out);
    handled := handled + fixedKeys;
    handled := handled + {"additionalProperties"};
    WalkAdditional(ctx, oa, ob, path, out);
  }

  method WalkType(ctx: Ctx, oa: map<string, Json>, ob: map<string, Json>, path: seq<Step>, out: Report)
    modifies out
    ensures out.list == old(out.list) + TypeChanges(ctx, oa, ob, path)
  {
    var (ta, tb) := (TypesOf(oa), TypesOf(ob));
    if ta != tb {
      out.Push(At(ctx, TypeSeverity(ctx.direction, ta, tb), path + [Key("type")]));
    }
  }

  method WalkConst(ctx: Ctx, oa: map<string, Json>, ob: map<string, Json>, path: seq<Step>, out: Report)
    modifies out
    ensures out.list == old(out.list) + ConstChanges(ctx, oa, ob, path)
  {
    if Get(oa, "const") != Get(ob, "const") {
      out.Push(At(ctx, Breaking, path + [Key("const")]));
    }
  }

  method WalkAdditional(ctx: Ctx, oa: map<string, Json>, ob: map<string, Json>, path: seq<Step>, out: Report)
    modifies out
    ensures out.list == old(out.list) + AdditionalChanges(ctx, oa, ob, path)
  {
    if Forbids(oa) != Forbids(ob) {
      out.Push(At(ctx, if Forbids(ob) then ctx.direction.Tighten() else ctx.direction.Loosen(),
                  path + [Key("additionalProperties")]));
    }
  }

  method WalkMetadata(ctx: Ctx, oa: map<string, Json>, ob: map<string, Json>, path: seq<Step>, keys: seq<string>,
                      out: Report) returns (handled: set<string>)
    modifies out
    ensures out.list == old(out.list) + MetadataChanges(ctx, oa, ob, path, keys)
    ensures handled == Elements(keys)
  {
    handled := {};
    ghost var before := out.list;
    for i := 0 to |keys|
      invariant handled == Elements(keys[..i])
      invariant before + MetadataChanges(ctx, oa, ob, path, keys)
             == out.list + MetadataChanges(ctx, oa, ob, path, keys[i..])
    {
      var key := keys[i];
      ghost var soFar := out.list;
      handled := handled + {key};
      if Get(oa, key) != Get(ob, key) {
        out.Push(At(ctx, Cosmetic, path + [Key(key)]));
      }
      assert keys[i..][1..] == keys[i + 1..];
      Associative(soFar, MetadataChange(ctx, oa, ob, path, key), MetadataChanges(ctx, oa, ob, path, keys[i + 1..]));
    }
  }

  method WalkEnum(ctx: Ctx, oa: map<string, Json>, ob: map<string, Json>, path: seq<Step>, out: Report)
    modifies out
    ensures out.list == old(out.list) + EnumChanges(ctx, oa, ob, path)
  {
    var (ea, eb) := (SetOf(Get(oa, "enum")), SetOf(Get(ob, "enum")));
    if ea != eb {
      var removed := ea - eb;
      var added := eb - ea;
      if removed != {} {
        out.Push(At(ctx, ctx.direction.Tighten(), path + [Key("enum")]));
      }
      if added != {} {
        out.Push(At(ctx, ctx.direction.Loosen(), path + [Key("enum")]));
      }
    }
  }

  method WalkBounds(ctx: Ctx, oa: map<string, Json>, ob: map<string, Json>, path: seq<Step>,
                    bounds: seq<(string, bool)>, out: Report) returns (handled: set<string>)
    modifies out
    ensures out.list == old(out.list) + BoundChanges(ctx, oa, ob, path, bounds)
    ensures handled == BoundNames(bounds)
  {
    handled := {};
    ghost var before := out.list;
    for i := 0 to |bounds|
      invariant handled == BoundNames(bounds[..i])
      invariant before + BoundChanges(ctx, oa, ob, path, bounds)
             == out.list + BoundChanges(ctx, oa, ob, path, bounds[i..])
    {
      var (key, higherIsStricter) := bounds[i];
      ghost var soFar := out.list;
      handled := handled + {key};
      var (va, vb) := (Num(Get(oa, key)), Num(Get(ob, key)));
      if va != vb {
        var stricter := Stricter(va, vb, higherIsStricter);
        out.Push(At(ctx, if stricter then ctx.direction.Tighten() else ctx.direction.Loosen(), path + [Key(key)]));
      }
      assert bounds[i..][1..] == bounds[i + 1..];
      Associative(soFar, BoundChange(ctx, oa, ob, path, bounds[i]), BoundChanges(ctx, oa, ob, path, bounds[i + 1..]));
    }
  }

  method WalkFixed(ctx: Ctx, oa: map<string, Json>, ob: map<string, Json>, path: seq<Step>, keys: seq<string>,
                   out: Report) returns (handled: set<string>)
    modifies out
    ensures out.list == old(out.list) + FixedChanges(ctx, oa, ob, path, keys)
    ensures handled == Elements(keys)
  {
    handled := {};
    ghost var before := out.list;
    for i := 0 to |keys|
      invariant handled == Elements(keys[..i])
      invariant before + FixedChanges(ctx, oa, ob, path, keys)
             == out.list + FixedChanges(ctx, oa, ob, path, keys[i..])
    {
      var key := keys[i];
      ghost var soFar := out.list;
      handled := handled + {key};
      var (va, vb) := (Get(oa, key), Get(ob, key));
      if va != vb {
        var severity :=
          match (va, vb)
          case (None, Some(_)) => ctx.direction.Tighten()
          case (Some(_), None) => ctx.direction.Loosen()
          case _ => Breaking;
        out.Push(At(ctx, severity, path + [Key(key)]));
      }
      assert keys[i..][1..] == keys[i + 1..];
      Associative(soFar, FixedChange(ctx, oa, ob, path, key), FixedChanges(ctx, oa, ob, path, keys[i + 1..]));
    }
  }

  method WalkProperties(ctx: Ctx, oa: map<string, Json>, ob: map<string, Json>, path: seq<Step>, depth: nat,
                        names: seq<string>, out: Report)
    requires depth <= MAX_DEPTH
    requires forall n :: n in names ==> n in Properties(oa)
    modifies out
    ensures out.list == old(out.list) + PropertyChanges(ctx, oa, ob, path, depth, names)
    decreases Room(depth), 2
  {
    ghost var before := out.list;
    var (ra, rb) := (SetOf(Get(oa, "required")), SetOf(Get(ob, "required")));
    for i := 0 to |names|
      invariant before + PropertyChanges(ctx, oa, ob, path, depth, names)
             == out.list + PropertyChanges(ctx, oa, ob, path, depth, names[i..])
    {
      ghost var soFar := out.list;
      WalkProperty(ctx, oa, ob, ra, rb, path + [Property(names[i])], depth, names[i], out);
      assert names[i..][1..] == names[i + 1..];
      Associative(soFar, PropertyChange(ctx, oa, ob, path, depth, names[i]),
                  PropertyChanges(ctx, oa, ob, path, depth, names[i + 1..]));
    }
  }

  method WalkProperty(ctx: Ctx, oa: map<string, Json>, ob: map<string, Json>, ra: set<Text>, rb: set<Text>,
                      here: seq<Step>, depth: nat, name: string, out: Report)
    requires depth <= MAX_DEPTH
    requires ra == SetOf(Get(oa, "required")) && rb == SetOf(Get(ob, "required"))
    requires name in Properties(oa) && |here| > 0
    requires here == here[..|here| - 1] + [Property(name)]
    modifies out
    ensures out.list == old(out.list) + PropertyChange(ctx, oa, ob, here[..|here| - 1], depth, name)
    decreases Room(depth), 1
  {
    hide WalkChanges;
    if name !in Properties(ob) {
      var severity :=
        match ctx.direction
        case Input => if Forbids(ob) then Breaking else Compatible
        case Output => Breaking;
      out.Push(At(ctx, severity, here));
    } else {
      var (was, now) := (QuotedName(name) in ra, QuotedName(name) in rb);
      if !was && now {
        out.Push(At(ctx, ctx.direction.Tighten(), here));
      } else if was && !now {
        out.Push(At(ctx, ctx.direction.Loosen(), here));
      }
      Walk(ctx, Properties(oa)[name], Properties(ob)[name], here, depth + 1, out);
    }
  }

  method WalkAdded(ctx: Ctx, oa: map<string, Json>, ob: map<string, Json>, path: seq<Step>, names: seq<string>,
                   out: Report)
    modifies out
    ensures out.list == old(out.list) + AddedChanges(ctx, oa, ob, path, names)
  {
    ghost var before := out.list;
    var rb := SetOf(Get(ob, "required"));
    for i := 0 to |names|
      invariant before + AddedChanges(ctx, oa, ob, path, names)
             == out.list + AddedChanges(ctx, oa, ob, path, names[i..])
    {
      var name := names[i];
      ghost var soFar := out.list;
      if name !in Properties(oa) {
        var required := QuotedName(name) in rb;
        var severity :=
          match (ctx.direction, required)
          case (Input, true) => Breaking
          case _ => Compatible;
        out.Push(At(ctx, severity, path + [Property(name)]));
      }
      assert names[i..][1..] == names[i + 1..];
      Associative(soFar, AddedChange(ctx, oa, ob, path, name), AddedChanges(ctx, oa, ob, path, names[i + 1..]));
    }
  }

  method WalkItems(ctx: Ctx, oa: map<string, Json>, ob: map<string, Json>, path: seq<Step>, depth: nat, out: Report)
    requires depth <= MAX_DEPTH
    modifies out
    ensures out.list == old(out.list) + ItemsChanges(ctx, oa, ob, path, depth)
    decreases Room(depth), 0
  {
    match (Get(oa, "items"), Get(ob, "items"))
    case (Some(ia), Some(ib)) => Walk(ctx, ia, ib, path + [Key("items")], depth + 1, out);
    case (None, None) =>
    case _ => out.Push(At(ctx, Breaking, path + [Key("items")]));
  }

  method WalkBranchKeys(ctx: Ctx, oa: map<string, Json>, ob: map<string, Json>, path: seq<Step>, depth: nat,
                        keys: seq<string>, out: Report)
    requires depth <= MAX_DEPTH
    modifies out
    ensures out.list == old(out.list) + BranchKeyChanges(ctx, oa, ob, path, depth, keys)
    decreases Room(depth), 2
  {
    ghost var before := out.list;
    for k := 0 to |keys|
      invariant before + BranchKeyChanges(ctx, oa, ob, path, depth, keys)
             == out.list + BranchKeyChanges(ctx, oa, ob, path, depth, keys[k..])
    {
      var key := keys[k];
      ghost var soFar := out.list;
      match (Branches(oa, key), Branches(ob, key)) {
        case (Some(la), Some(lb)) =>
          if |la| == |lb| {
            WalkBranches(ctx, la, lb, key, path, depth, out);
          } else {
            var severity :=
              if key == "allOf" then
                (if |lb| > |la| then ctx.direction.Tighten() else ctx.direction.Loosen())
              else if |lb| > |la| then ctx.direction.Loosen()
              else ctx.direction.Tighten();
            out.Push(At(ctx, severity, path + [Key(key)]));
          }
        case (None, None) =>
        case _ =>
          out.Push(At(ctx, Breaking, path + [Key(key)]));
      }
      assert keys[k..][1..] == keys[k + 1..];
      Associative(soFar, BranchKeyChange(ctx, oa, ob, path, depth, key),
                  BranchKeyChanges(ctx, oa, ob, path, depth, keys[k + 1..]));
    }
  }

  method WalkBranches(ctx: Ctx, la: seq<Json>, lb: seq<Json>, key: string, path: seq<Step>, depth: nat, out: Report)
    requires depth <= MAX_DEPTH && |la| == |lb|
    modifies out
    ensures out.list == old(out.list) + BranchChanges(ctx, la, lb, key, path, depth, 0)
    decreases Room(depth), 1
  {
    hide WalkChanges;
    ghost var before := out.list;
    for i := 0 to |la|
      invariant before + BranchChanges(ctx, la, lb, key, path, depth, 0)
             == out.list + BranchChanges(ctx, la, lb, key, path, depth, i)
    {
      ghost var soFar := out.list;
      Walk(ctx, la[i], lb[i], path + [Branch(key, i)], depth + 1, out);
      Associative(soFar, WalkChanges(ctx, la[i], lb[i], path + [Branch(key, i)], depth + 1),
                  BranchChanges(ctx, la, lb, key, path, depth, i + 1));
    }
  }

  method WalkUnknown(ctx: Ctx, oa: map<string, Json>, ob: map<string, Json>, path: seq<Step>, handled: set<string>,
                     keys: seq<string>, out: Report)
    modifies out
    ensures out.list == old(out.list) + UnknownChanges(ctx, oa, ob, path, handled, keys)
  {
    ghost var before := out.list;
    for i := 0 to |keys|
      invariant before + UnknownChanges(ctx, oa, ob, path, handled, keys)
             == out.list + UnknownChanges(ctx, oa, ob, path, handled, keys[i..])
    {
      var key := keys[i];
      ghost var soFar := out.list;
      if key !in handled && Get(oa, key) != Get(ob, key) {
        out.Push(At(ctx, Breaking, path + [Key(key)]));
      }
      assert keys[i..][1..] == keys[i + 1..];
      Associative(soFar, UnknownChange(ctx, oa, ob, path, handled, key),
                  UnknownChanges(ctx, oa, ob, path, handled, keys[i + 1..]));
    }
  }
}
