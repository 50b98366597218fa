/** JSON pointers, and how `$ref` is followed through them. */
module Pointer {
  import opened Json

  const MAX_DEPTH: nat := 32

  /** The pieces of `s` between separators. */
  function Split(s: string, sep: char): (r: seq<string>)
    ensures |r| >= 1
  {
    if s == [] then [[]]
    else
      var rest := Split(s[1..], sep);
      if s[0] == sep then [[]] + rest else [[s[0]] + rest[0]] + rest[1..]
  }

  /** Every `~c` of `s`, read left to right, replaced by `r`. */
  function ReplaceTilde(s: string, c: char, r: char): string {
    if |s| < 2 then s
    else if s[0] == '~' && s[1] == c then [r] + ReplaceTilde(s[2..], c, r)
    else [s[0]] + ReplaceTilde(s[1..], c, r)
  }

  function Unescape(token: string): string {
    ReplaceTilde(ReplaceTilde(token, '1', '/'), '0', '~')
  }

  function Decimal(s: string): Option<nat> {
    if s == [] then None
    else
      var last := s[|s| - 1];
      if !('0' <= last <= '9') then None
      else
        var digit := (last - '0') as nat;
        if |s| == 1 then Some(digit)
        else match Decimal(s[..|s| - 1])
          case None => None
          case Some(n) => Some(10 * n + digit)
  }

  function ParseIndex(s: string): Option<nat> {
    if s != [] && (s[0] == '+' || (s[0] == '0' && |s| != 1)) then None else Decimal(s)
  }

  function Follow(target: Json, tokens: seq<string>): Option<Json> {
    if tokens == [] then Some(target)
    else
      var token := Unescape(tokens[0]);
      var next :=
        match target
        case Object(fields) => Get(fields, token)
        case Array(items) => (match ParseIndex(token)
                              case Some(i) => if i < |items| then Some(items[i]) else None
                              case None => None)
        case _ => None;
      match next
      case None => None
      case Some(v) => Follow(v, tokens[1..])
  }

  function Lookup(root: Json, pointer: string): Option<Json> {
    if pointer == [] then Some(root)
    else if pointer[0] != '/' then None
    else Follow(root, Split(pointer, '/')[1..])
  }

  /** Where one `$ref` leads: `None` when `schema` has none that can be followed. */
  function Hop(root: Json, schema: Json): Option<Json> {
    match Field(schema, "$ref")
    case Some(String(reference)) =>
      if reference != [] && reference[0] == '#' then Lookup(root, reference[1..]) else None
    case _ => None
  }

  /** `schema` after at most `hops` references. */
  function Resolved(root: Json, schema: Json, hops: nat): Json
    decreases hops
  {
    if hops == 0 then schema
    else match Hop(root, schema)
      case None => schema
      case Some(target) => Resolved(root, target, hops - 1)
  }

  function HopsAt(depth: nat): nat {
    MAX_DEPTH - if depth < MAX_DEPTH then depth else MAX_DEPTH
  }

  method Resolve(root: Json, schema: Json, depth: nat) returns (current: Json)
    ensures current == Resolved(root, schema, HopsAt(depth))
  {
    current := schema;
    var hops := HopsAt(depth);
    for i := 0 to hops
      invariant Resolved(root, schema, hops) == Resolved(root, current, hops - i)
    {
      match Hop(root, current)
      case None => return;
      case Some(target) => current := target;
    }
  }

  // --- What a pointer names ---

  /** How a key is written in a pointer: section 3 of RFC 6901. */
  function Escaped(key: string): string {
    if key == [] then []
    else (if key[0] == '~' then "~0" else if key[0] == '/' then "~1" else [key[0]]) + Escaped(key[1..])
  }

  function Written(keys: seq<string>): string {
    if keys == [] then [] else "/" + Escaped(keys[0]) + Written(keys[1..])
  }

  /** `key` with `/` written as `~1`. */
  function HalfEscaped(key: string): string {
    if key == [] then [] else (if key[0] == '~' then "~0" else [key[0]]) + HalfEscaped(key[1..])
  }

  lemma {:induction false} FirstReplacement(key: string)
    ensures ReplaceTilde(Escaped(key), '1', '/') == HalfEscaped(key)
  {
    if key != [] {
      FirstReplacement(key[1..]);
      var (c, rest) := (key[0], Escaped(key[1..]));
      if c == '~' {
        assert Escaped(key) == ['~', '0'] + rest && (['~', '0'] + rest)[1..] == ['0'] + rest;
        ReplaceAfter('0', rest, '1', '/');
      } else if c == '/' {
        assert Escaped(key) == ['~', '1'] + rest && (['~', '1'] + rest)[2..] == rest;
      } else {
        ReplaceAfter(c, rest, '1', '/');
      }
    }
  }

  lemma ReplaceAfter(c: char, rest: string, from: char, to: char)
    requires c != '~'
    ensures ReplaceTilde([c] + rest, from, to) == [c] + ReplaceTilde(rest, from, to)
  {
    assert ([c] + rest)[1..] == rest;
  }

  lemma {:induction false} SecondReplacement(key: string)
    ensures ReplaceTilde(HalfEscaped(key), '0', '~') == key
  {
    if key != [] {
      SecondReplacement(key[1..]);
      var (c, rest) := (key[0], HalfEscaped(key[1..]));
      if c == '~' {
        assert HalfEscaped(key) == ['~', '0'] + rest && (['~', '0'] + rest)[2..] == rest;
      } else {
        ReplaceAfter(c, rest, '0', '~');
      }
      assert key == [c] + key[1..];
    }
  }

  /** Reading a key undoes writing it. */
  lemma UnescapeUndoes(key: string)
    ensures Unescape(Escaped(key)) == key
  {
    FirstReplacement(key);
    SecondReplacement(key);
  }

  lemma {:induction false} EscapedHasNoSlash(key: string)
    ensures '/' !in Escaped(key)
  {
    if key != [] {
      EscapedHasNoSlash(key[1..]);
    }
  }

  lemma {:induction false} SplitFirst(word: string, rest: string)
    requires '/' !in word
    ensures Split(word + rest, '/') == [word + Split(rest, '/')[0]] + Split(rest, '/')[1..]
  {
    if word == [] {
      assert word + rest == rest && word + Split(rest, '/')[0] == Split(rest, '/')[0];
    } else {
      SplitFirst(word[1..], rest);
      assert (word + rest)[1..] == word[1..] + rest && (word + rest)[0] == word[0];
      var first := Split(rest, '/')[0];
      assert word + first == [word[0]] + (word[1..] + first);
    }
  }

  /** The pieces of a written pointer are its keys. */
  lemma {:induction false} SplitUndoes(keys: seq<string>)
    ensures |Split(Written(keys), '/')| == |keys| + 1 && Split(Written(keys), '/')[0] == ""
    ensures forall i :: 0 <= i < |keys| ==> Unescape(Split(Written(keys), '/')[i + 1]) == keys[i]
  {
    hide Unescape, Escaped;
    if keys != [] {
      var (word, rest) := (Escaped(keys[0]), Written(keys[1..]));
      SplitUndoes(keys[1..]);
      EscapedHasNoSlash(keys[0]);
      SplitFirst(word, rest);
      UnescapeUndoes(keys[0]);
      assert Written(keys) == ['/'] + (word + rest) && Written(keys)[1..] == word + rest;
      assert word + "" == word;
      var pieces := Split(Written(keys), '/');
      assert pieces == [""] + Split(word + rest, '/');
      forall i | 0 < i < |keys| ensures Unescape(pieces[i + 1]) == keys[i] {
        assert pieces[i + 1] == Split(rest, '/')[i];
      }
    }
  }

  /** What is under `keys`, one inside the other. */
  function Under(target: Json, keys: seq<string>): Option<Json>
    decreases |keys|
  {
    if keys == [] then Some(target)
    else if target.Object? && keys[0] in target.fields then Under(target.fields[keys[0]], keys[1..])
    else if target.Array? && ParseIndex(keys[0]).Some? && ParseIndex(keys[0]).value < |target.items|
      then Under(target.items[ParseIndex(keys[0]).value], keys[1..])
    else None
  }

  lemma {:induction false} FollowsUnder(target: Json, tokens: seq<string>, keys: seq<string>)
    requires |tokens| == |keys| && forall i :: 0 <= i < |keys| ==> Unescape(tokens[i]) == keys[i]
    ensures Follow(target, tokens) == Under(target, keys)
    decreases |keys|
  {
    hide Unescape, ParseIndex;
    if keys != [] {
      forall next: Json ensures Follow(next, tokens[1..]) == Under(next, keys[1..]) {
        FollowsUnder(next, tokens[1..], keys[1..]);
      }
    }
  }

  /** A pointer leads to what is under its keys, whatever characters they have. */
  lemma PointersFollowTheirKeys(root: Json, keys: seq<string>)
    ensures Lookup(root, Written(keys)) == Under(root, keys)
  {
    if keys != [] {
      SplitUndoes(keys);
      var tokens := Split(Written(keys), '/')[1..];
      FollowsUnder(root, tokens, keys);
      assert Written(keys)[0] == '/';
    }
  }

  /** The decimal digits of `n`. */
  function Printed(n: nat): string {
    if n < 10 then ['0' + n as char] else Printed(n / 10) + ['0' + (n % 10) as char]
  }

  lemma {:induction false} DecimalUndoes(n: nat)
    ensures Decimal(Printed(n)) == Some(n) && |Printed(n)| > 0 && (Printed(n)[0] == '0' <==> n == 0)
    ensures n >= 10 ==> |Printed(n)| > 1
    ensures '0' <= Printed(n)[0] <= '9'
  {
    if n >= 10 {
      DecimalUndoes(n / 10);
      var s := Printed(n);
      assert s[..|s| - 1] == Printed(n / 10) && s[|s| - 1] == '0' + (n % 10) as char;
    }
  }

  lemma {:induction false} DecimalIsPrinted(s: string)
    requires Decimal(s).Some? && (s[0] != '0' || |s| == 1)
    ensures Printed(Decimal(s).value) == s && (s[0] != '0' ==> Decimal(s).value > 0)
  {
    if |s| > 1 {
      var before := s[..|s| - 1];
      assert before[0] == s[0];
      DecimalIsPrinted(before);
      assert s == before + [s[|s| - 1]];
    }
  }

  /** An index is read from its decimal digits, and from nothing else. */
  lemma IndexIsItsDigits(s: string, n: nat)
    ensures ParseIndex(s) == Some(n) <==> s == Printed(n)
  {
    DecimalUndoes(n);
    if ParseIndex(s) == Some(n) {
      DecimalIsPrinted(s);
    }
  }

  /** One reference fewer is followed at every level down, and none from the last on. */
  lemma HopsRunOut(depth: nat)
    ensures HopsAt(0) == MAX_DEPTH && (HopsAt(depth) == 0 <==> depth >= MAX_DEPTH)
    ensures HopsAt(depth + 1) == if HopsAt(depth) == 0 then 0 else HopsAt(depth) - 1
  {
  }

  /** Where `hops` references lead, when every one of them can be followed. */
  function Hops(root: Json, schema: Json, hops: nat): Option<Json> {
    if hops == 0 then Some(schema)
    else match Hops(root, schema, hops - 1)
      case None => None
      case Some(target) => Hop(root, target)
  }

  lemma {:induction false} HopsFromTheFirst(root: Json, schema: Json, hops: nat)
    requires Hop(root, schema).Some?
    ensures Hops(root, schema, hops + 1) == Hops(root, Hop(root, schema).value, hops)
  {
    hide Hop;
    if hops == 0 {
      assert Hops(root, schema, 0) == Some(schema);
    } else {
      HopsFromTheFirst(root, schema, hops - 1);
    }
  }

  /** References are followed until one cannot be, or the bound is met. */
  lemma {:induction false} ResolvedIsTheEnd(root: Json, schema: Json, bound: nat) returns (hops: nat)
    ensures hops <= bound && Hops(root, schema, hops) == Some(Resolved(root, schema, bound))
    ensures hops == bound || Hop(root, Resolved(root, schema, bound)) == None
    decreases bound
  {
    hide Hop;
    hops := 0;
    if bound > 0 && Hop(root, schema).Some? {
      var further := ResolvedIsTheEnd(root, Hop(root, schema).value, bound - 1);
      hops := further + 1;
      HopsFromTheFirst(root, schema, further);
    }
  }
}
