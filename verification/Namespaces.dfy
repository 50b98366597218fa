/** Which path of the gateway each server is served under. */
module Namespaces {
  import opened Json

  const MAX_LENGTH: nat := 64

  predicate Alphanumeric(c: char) {
    'a' <= c <= 'z' || 'A' <= c <= 'Z' || '0' <= c <= '9'
  }

  predicate Valid(name: string) {
    && name != "" && |name| <= MAX_LENGTH
    && forall i :: 0 <= i < |name| ==> Alphanumeric(name[i]) || name[i] == '_' || name[i] == '-'
  }

  /** Lower case, for an ASCII letter. */
  function Lower(c: char): char {
    if 'A' <= c <= 'Z' then 'a' + (c - 'A') else c
  }

  // --- A namespace made from a name ---

  function Slug(name: string): string {
    if name == [] then []
    else
      var (before, c) := (Slug(name[..|name| - 1]), name[|name| - 1]);
      if Alphanumeric(c) || c == '_' then before + [Lower(c)]
      else if before != [] && before[|before| - 1] != '-' then before + ['-']
      else before
  }

  function TrimEnd(s: string): string {
    if s != [] && s[|s| - 1] == '-' then TrimEnd(s[..|s| - 1]) else s
  }

  function Take(s: string, n: nat): string {
    if |s| <= n then s else s[..n]
  }

  function Default(name: string): string {
    var out := Take(TrimEnd(Slug(name)), MAX_LENGTH);
    if out == "" then "server" else out
  }

  method DefaultNamespace(name: string) returns (r: string)
    ensures r == Default(name)
  {
    var out := "";
    for i := 0 to |name|
      invariant out == Slug(name[..i])
    {
      var c := name[i];
      assert name[..i + 1][..i] == name[..i];
      if Alphanumeric(c) || c == '_' {
        out := out + [Lower(c)];
      } else if out != [] && out[|out| - 1] != '-' {
        out := out + ['-'];
      }
    }
    assert name[..|name|] == name;
    out := Take(TrimEnd(out), MAX_LENGTH);
    r := if out == "" then "server" else out;
  }

  /** Lower case letters, digits and `_`, with single dashes between. */
  predicate Slugged(s: string) {
    && (s != [] ==> s[0] != '-')
    && (forall i :: 0 <= i < |s| ==> 'a' <= s[i] <= 'z' || '0' <= s[i] <= '9' || s[i] == '_' || s[i] == '-')
    && (forall i :: 0 < i < |s| ==> !(s[i - 1] == '-' && s[i] == '-'))
  }

  lemma {:induction false} SlugIsSlugged(name: string)
    ensures Slugged(Slug(name))
  {
    if name != [] {
      SlugIsSlugged(name[..|name| - 1]);
    }
  }

  lemma {:induction false} TrimmedIsPrefix(s: string)
    ensures TrimEnd(s) <= s && (TrimEnd(s) != [] ==> TrimEnd(s)[|TrimEnd(s)| - 1] != '-')
  {
    if s != [] && s[|s| - 1] == '-' {
      TrimmedIsPrefix(s[..|s| - 1]);
    }
  }

  /** Whatever the name, the namespace made from it is valid, in lower case, with no two dashes in a
      row. */
  lemma DefaultIsValid(name: string)
    ensures Valid(Default(name)) && Slugged(Default(name))
  {
    SlugIsSlugged(name);
    TrimmedIsPrefix(Slug(name));
  }

  /** A name without a letter, a digit or `_` makes `server`, and no other name is empty when trimmed. */
  lemma {:induction false} SlugIsEmpty(name: string)
    ensures Slug(name) == "" <==> forall i :: 0 <= i < |name| ==> !Alphanumeric(name[i]) && name[i] != '_'
  {
    if name != [] {
      var n := |name| - 1;
      SlugIsEmpty(name[..n]);
      assert forall i :: 0 <= i < n ==> name[..n][i] == name[i];
    }
  }

  lemma {:induction false} TrimKeeps(s: string)
    requires Slugged(s)
    ensures TrimEnd(s) == "" <==> s == ""
  {
    if s != [] && s[|s| - 1] == '-' {
      SluggedPrefix(s, |s| - 1);
      TrimKeeps(s[..|s| - 1]);
      assert |s| > 1;
    }
  }

  lemma NamelessIsServer(name: string)
    ensures TrimEnd(Slug(name)) == "" <==> forall i :: 0 <= i < |name| ==> !Alphanumeric(name[i]) && name[i] != '_'
    ensures TrimEnd(Slug(name)) == "" ==> Default(name) == "server"
  {
    SlugIsEmpty(name);
    SlugIsSlugged(name);
    TrimKeeps(Slug(name));
  }

  lemma SluggedPrefix(s: string, n: nat)
    requires Slugged(s) && n <= |s|
    ensures Slugged(s[..n])
  {
    forall i | 0 < i < n ensures !(s[..n][i - 1] == '-' && s[..n][i] == '-') {
      assert !(s[i - 1] == '-' && s[i] == '-');
    }
  }

  lemma {:induction false} SlugOfSlugged(name: string)
    requires Slugged(name)
    ensures Slug(name) == name
  {
    if name != [] {
      var n := |name| - 1;
      SluggedPrefix(name, n);
      SlugOfSlugged(name[..n]);
      assert name[..n] + [name[n]] == name;
      assert name[n] == '-' ==> n > 0 && name[n - 1] != '-';
      hide Slugged;
    }
  }

  /** A name that is a namespace already is its own. */
  lemma DefaultKeepsNamespaces(name: string)
    requires Slugged(name) && name != "" && |name| <= MAX_LENGTH && name[|name| - 1] != '-'
    ensures Default(name) == name
  {
    SlugOfSlugged(name);
  }

  // --- Numbers as text ---

  function Digit(d: nat): char
    requires d < 10
  {
    '0' + d as char
  }

  function Decimal(n: nat): string {
    if n < 10 then [Digit(n)] else Decimal(n / 10) + [Digit(n % 10)]
  }

  lemma {:induction false} DecimalInjective(m: nat, n: nat)
    requires Decimal(m) == Decimal(n)
    ensures m == n
    decreases m
  {
    var (x, y) := (Decimal(m), Decimal(n));
    DecimalLength(m);
    DecimalLength(n);
    assert x[|x| - 1] == Digit(m % 10) && y[|y| - 1] == Digit(n % 10);
    if m >= 10 {
      assert x[..|x| - 1] == Decimal(m / 10) && y[..|y| - 1] == Decimal(n / 10);
      DecimalInjective(m / 10, n / 10);
    }
  }

  lemma DecimalLength(n: nat)
    ensures |Decimal(n)| > 1 <==> n >= 10
  {
  }

  // --- A namespace nobody holds ---

  function Numbered(base: string, n: nat): string {
    base + "-" + Decimal(n)
  }

  lemma NumberedInjective(base: string, m: nat, n: nat)
    requires Numbered(base, m) == Numbered(base, n)
    ensures m == n
  {
    assert Decimal(m) == Numbered(base, m)[|base| + 1..];
    assert Decimal(n) == Numbered(base, n)[|base| + 1..];
    DecimalInjective(m, n);
  }

  lemma ASecondOfAName(base: string)
    ensures Numbered(base, 2) == base + "-2" && Numbered(base, 10) == base + "-10"
  {
    assert Decimal(1) == "1" && Decimal(10) == Decimal(1) + [Digit(0)];
  }

  function Elements(s: seq<string>): set<string> {
    set x | x in s
  }

  lemma ElementsBounded(s: seq<string>)
    ensures |Elements(s)| <= |s|
  {
    if s != [] {
      ElementsBounded(s[1..]);
      assert Elements(s) == Elements(s[1..]) + {s[0]};
    }
  }

  function Candidates(base: string, n: nat): (all: set<string>) {
    set m | 2 <= m < n :: Numbered(base, m)
  }

  /** As many candidates as numbers: no two are the same. */
  lemma {:induction false} CandidatesDiffer(base: string, n: nat)
    requires n >= 2
    ensures |Candidates(base, n)| == n - 2
  {
    if n > 2 {
      CandidatesDiffer(base, n - 1);
      assert Candidates(base, n) == Candidates(base, n - 1) + {Numbered(base, n - 1)};
      if Numbered(base, n - 1) in Candidates(base, n - 1) {
        var m :| 2 <= m < n - 1 && Numbered(base, m) == Numbered(base, n - 1);
        NumberedInjective(base, m, n - 1);
      }
    } else {
      assert Candidates(base, n) == {};
    }
  }

  /** `n` is the first number, from 2, whose candidate is free. */
  predicate FirstFree(base: string, taken: seq<string>, n: nat) {
    n >= 2 && Numbered(base, n) !in taken && forall m :: 2 <= m < n ==> Numbered(base, m) in taken
  }

  /** `r` is `base`, or when that is taken, `base` with the first number that is free. */
  ghost predicate Unique(base: string, taken: seq<string>, r: string) {
    if base !in taken then r == base else exists n :: FirstFree(base, taken, n) && r == Numbered(base, n)
  }

  /** Ends, because no more candidates can be taken than there are namespaces taken. */
  method UniqueNamespace(base: string, taken: seq<string>) returns (r: string)
    ensures Unique(base, taken, r)
  {
    if base !in taken {
      return base;
    }
    var n := 2;
    ElementsBounded(taken);
    while Numbered(base, n) in taken
      invariant 2 <= n <= |taken| + 2
      invariant forall m :: 2 <= m < n ==> Numbered(base, m) in taken
      decreases |taken| + 2 - n
    {
      n := n + 1;
      assert Candidates(base, n) <= Elements(taken);
      CandidatesDiffer(base, n);
      SubsetSize(Candidates(base, n), Elements(taken));
    }
    assert FirstFree(base, taken, n);
    r := Numbered(base, n);
  }

  lemma UniqueIsFree(base: string, taken: seq<string>, r: string)
    requires Unique(base, taken, r)
    ensures r !in taken && base <= r
  {
  }

  lemma UniqueIsUnique(base: string, taken: seq<string>, r: string, s: string)
    requires Unique(base, taken, r) && Unique(base, taken, s)
    ensures r == s
  {
    if base in taken {
      var m :| FirstFree(base, taken, m) && r == Numbered(base, m);
      var n :| FirstFree(base, taken, n) && s == Numbered(base, n);
      assert m == n;
    }
  }

  // --- The plan ---

  datatype Record = Record(id: string, name: string)

  datatype Included = Included(on: bool, namespace: string)

  function Wanted(settings: map<string, Included>, server: Record): string {
    if server.id in settings && Valid(settings[server.id].namespace) then settings[server.id].namespace
    else Default(server.name)
  }

  function On(settings: map<string, Included>, server: Record): bool {
    server.id in settings ==> settings[server.id].on
  }

  function Held(plan: seq<(string, Included)>): seq<string> {
    seq(|plan|, i requires 0 <= i < |plan| => plan[i].1.namespace)
  }

  /** Each server, in order, is switched as chosen and has its wanted namespace, made unique among
      those of the servers before it. */
  ghost predicate IsPlan(settings: map<string, Included>, servers: seq<Record>, plan: seq<(string, Included)>) {
    && |plan| == |servers|
    && forall i :: 0 <= i < |plan| ==>
         && plan[i].0 == servers[i].id && plan[i].1.on == On(settings, servers[i])
         && Unique(Wanted(settings, servers[i]), Held(plan)[..i], plan[i].1.namespace)
  }

  lemma PlanOfNone(settings: map<string, Included>)
    ensures IsPlan(settings, [], [])
  {
  }

  method Plan(settings: map<string, Included>, servers: seq<Record>) returns (plan: seq<(string, Included)>)
    ensures IsPlan(settings, servers, plan)
  {
    hide Unique, Valid, IsPlan;
    var taken: seq<string> := [];
    plan := [];
    PlanOfNone(settings);
    assert servers[..0] == [];
    for k := 0 to |servers|
      invariant taken == Held(plan)
      invariant IsPlan(settings, servers[..k], plan)
    {
      var server := servers[k];
      var wanted;
      if server.id in settings && Valid(settings[server.id].namespace) {
        wanted := settings[server.id].namespace;
      } else {
        wanted := DefaultNamespace(server.name);
      }
      var namespace := UniqueNamespace(wanted, taken);
      taken := taken + [namespace];
      var entry := (server.id, Included(server.id in settings ==> settings[server.id].on, namespace));
      PlanGrows(settings, servers[..k], plan, server, entry);
      assert servers[..k + 1] == servers[..k] + [server];
      plan := plan + [entry];
    }
    assert servers[..|servers|] == servers;
  }

  lemma PlanGrows(settings: map<string, Included>, servers: seq<Record>, plan: seq<(string, Included)>,
                  server: Record, entry: (string, Included))
    requires IsPlan(settings, servers, plan)
    requires entry.0 == server.id && entry.1.on == On(settings, server)
    requires Unique(Wanted(settings, server), Held(plan), entry.1.namespace)
    ensures IsPlan(settings, servers + [server], plan + [entry])
  {
    hide Unique, Wanted, On;
    forall i | 0 <= i <= |plan|
      ensures Held(plan + [entry])[..i] == Held(plan)[..i]
    {
    }
    assert Held(plan)[..|plan|] == Held(plan);
  }

  /** A server for which nothing was chosen is served; another is as chosen. */
  lemma ServedUnlessSwitchedOff(settings: map<string, Included>, servers: seq<Record>, plan: seq<(string, Included)>,
                                i: nat)
    requires IsPlan(settings, servers, plan) && i < |plan|
    ensures plan[i].0 == servers[i].id
    ensures plan[i].1.on <==> !(servers[i].id in settings && !settings[servers[i].id].on)
  {
  }

  /** Two servers never share a path. */
  lemma NamespacesDiffer(settings: map<string, Included>, servers: seq<Record>, plan: seq<(string, Included)>, i: nat,
                         j: nat)
    requires IsPlan(settings, servers, plan) && i < j < |plan|
    ensures plan[i].1.namespace != plan[j].1.namespace
  {
    UniqueIsFree(Wanted(settings, servers[j]), Held(plan)[..j], plan[j].1.namespace);
    assert Held(plan)[..j][i] == plan[i].1.namespace;
  }

  /** There is one plan, and what a server gets depends on the servers before it alone. */
  lemma {:induction false} PlansAgree(settings: map<string, Included>, servers: seq<Record>,
                                      plan: seq<(string, Included)>, others: map<string, Included>,
                                      more: seq<Record>, other: seq<(string, Included)>, k: nat)
    requires IsPlan(settings, servers, plan) && IsPlan(others, more, other)
    requires k <= |plan| && k <= |other|
    requires forall i :: 0 <= i < k ==>
               && servers[i].id == more[i].id && On(settings, servers[i]) == On(others, more[i])
               && Wanted(settings, servers[i]) == Wanted(others, more[i])
    ensures plan[..k] == other[..k]
  {
    hide Unique, Wanted, On;
    if k > 0 {
      PlansAgree(settings, servers, plan, others, more, other, k - 1);
      assert Held(plan)[..k - 1] == Held(plan[..k - 1]) && Held(other)[..k - 1] == Held(other[..k - 1]);
      UniqueIsUnique(Wanted(settings, servers[k - 1]), Held(plan)[..k - 1], plan[k - 1].1.namespace,
                     other[k - 1].1.namespace);
      assert plan[..k] == plan[..k - 1] + [plan[k - 1]] && other[..k] == other[..k - 1] + [other[k - 1]];
    }
  }

  /** Servers asking for the same paths get the same paths, whatever else was chosen for them. So it
      is enough that every server but one asks for what it did, and that one gets what it had. */
  lemma {:induction false} PathsAgree(settings: map<string, Included>, others: map<string, Included>,
                                      servers: seq<Record>, plan: seq<(string, Included)>,
                                      other: seq<(string, Included)>, ix: nat, k: nat)
    requires IsPlan(settings, servers, plan) && IsPlan(others, servers, other)
    requires k <= |plan| && ix < |plan| && plan[ix].1.namespace == other[ix].1.namespace
    requires forall i :: 0 <= i < k && i != ix ==> Wanted(settings, servers[i]) == Wanted(others, servers[i])
    ensures Held(plan)[..k] == Held(other)[..k]
  {
    hide Unique, Wanted, On;
    if k > 0 {
      PathsAgree(settings, others, servers, plan, other, ix, k - 1);
      if k - 1 != ix {
        UniqueIsUnique(Wanted(settings, servers[k - 1]), Held(plan)[..k - 1],
                       plan[k - 1].1.namespace, other[k - 1].1.namespace);
      }
      assert Held(plan)[..k] == Held(plan)[..k - 1] + [plan[k - 1].1.namespace];
      assert Held(other)[..k] == Held(other)[..k - 1] + [other[k - 1].1.namespace];
    }
  }

  // --- Changing a server's part ---

  datatype Outcome = Accepted(next: Included) | NoSuchServer | NotValid | AlreadyHeld

  predicate DistinctIds(servers: seq<Record>) {
    forall i, j :: 0 <= i < j < |servers| ==> servers[i].id != servers[j].id
  }

  /** Where server `id` is in the plan, or the plan's length. */
  function Find(plan: seq<(string, Included)>, id: string): (ix: nat)
    ensures ix <= |plan|
    ensures ix < |plan| ==> plan[ix].0 == id
    ensures forall i :: 0 <= i < ix ==> plan[i].0 != id
  {
    if plan == [] || plan[0].0 == id then 0 else 1 + Find(plan[1..], id)
  }

  predicate HeldByAnother(plan: seq<(string, Included)>, id: string, namespace: string) {
    exists i :: 0 <= i < |plan| && plan[i].0 != id && plan[i].1.namespace == namespace
  }

  /** What is made of a request to switch server `id`, to name its path, or both. */
  function Choice(plan: seq<(string, Included)>, id: string, on: Option<bool>, namespace: Option<string>): Outcome {
    var ix := Find(plan, id);
    if ix == |plan| then NoSuchServer
    else if namespace.Some? && !Valid(namespace.value) then NotValid
    else if namespace.Some? && HeldByAnother(plan, id, namespace.value) then AlreadyHeld
    else Accepted(Included(if on.Some? then on.value else plan[ix].1.on,
                           if namespace.Some? then namespace.value else plan[ix].1.namespace))
  }

  /** A choice is taken exactly for a server of the plan, with no path chosen or one that is valid and no
      other server has; it changes what it names and keeps the rest. */
  lemma WhenAChoiceIsTaken(plan: seq<(string, Included)>, id: string, on: Option<bool>, namespace: Option<string>)
    ensures var outcome := Choice(plan, id, on, namespace);
            && (outcome.Accepted? <==>
                  && (exists i :: 0 <= i < |plan| && plan[i].0 == id)
                  && (namespace.Some? ==>
                        && Valid(namespace.value)
                        && forall i :: 0 <= i < |plan| && plan[i].1.namespace == namespace.value ==> plan[i].0 == id))
            && (outcome.NoSuchServer? <==> forall i :: 0 <= i < |plan| ==> plan[i].0 != id)
            && (outcome.NotValid? ==> namespace.Some? && !Valid(namespace.value))
            && (outcome.Accepted? ==>
                  && Find(plan, id) < |plan|
                  && (outcome.next.on <==> if on.Some? then on.value else plan[Find(plan, id)].1.on)
                  && outcome.next.namespace == if namespace.Some? then namespace.value
                                               else plan[Find(plan, id)].1.namespace)
  {
    hide Valid;
  }

  /** An accepted choice is kept unless it is what the plan has already. */
  function SettingsAfter(settings: map<string, Included>, plan: seq<(string, Included)>, id: string,
                         outcome: Outcome): map<string, Included> {
    if outcome.Accepted? && Find(plan, id) < |plan| && plan[Find(plan, id)].1 != outcome.next
    then settings[id := outcome.next] else settings
  }

  class Gateway {
    const servers: seq<Record>
    var settings: map<string, Included>

    constructor (servers: seq<Record>, settings: map<string, Included>)
      ensures this.servers == servers && this.settings == settings
    {
      this.servers, this.settings := servers, settings;
    }

    method SetServer(id: string, on: Option<bool>, namespace: Option<string>)
      returns (outcome: Outcome, ghost plan: seq<(string, Included)>)
      modifies this`settings
      ensures IsPlan(old(settings), servers, plan)
      ensures outcome == Choice(plan, id, on, namespace)
      ensures settings == SettingsAfter(old(settings), plan, id, outcome)
    {
      hide IsPlan, Unique, Valid;
      var current := Plan(settings, servers);
      plan := current;
      var ix := Find(current, id);
      if ix == |current| {
        return NoSuchServer, plan;
      }
      var next := current[ix].1;
      if on.Some? {
        next := next.(on := on.value);
      }
      if namespace.Some? {
        if !Valid(namespace.value) {
          return NotValid, plan;
        }
        for i := 0 to |current|
          invariant forall j :: 0 <= j < i ==> current[j].0 == id || current[j].1.namespace != namespace.value
        {
          if current[i].0 != id && current[i].1.namespace == namespace.value {
            return AlreadyHeld, plan;
          }
        }
        next := next.(namespace := namespace.value);
      }
      if current[ix].1 != next {
        settings := settings[id := next];
      }
      outcome := Accepted(next);
    }
  }

  /** Once a choice is accepted, the next plan gives the earlier servers what they had and gives the
      server what was chosen. A path that may not be chosen, as a number made it too long, is not kept
      in the settings: a server that is only switched then gets the one made from its name. */
  lemma TheNextPlan(settings: map<string, Included>, servers: seq<Record>, plan: seq<(string, Included)>,
                    id: string, on: Option<bool>, namespace: Option<string>, next: seq<(string, Included)>)
    requires DistinctIds(servers) && IsPlan(settings, servers, plan)
    requires Choice(plan, id, on, namespace).Accepted?
    requires IsPlan(SettingsAfter(settings, plan, id, Choice(plan, id, on, namespace)), servers, next)
    ensures var (ix, chosen) := (Find(plan, id), Choice(plan, id, on, namespace).next);
            && next[..ix] == plan[..ix]
            && next[ix].0 == id && next[ix].1.on == chosen.on
            && (if Valid(chosen.namespace) || chosen == plan[ix].1 then next[ix].1.namespace == chosen.namespace
                else Unique(Default(servers[ix].name), Held(plan)[..ix], next[ix].1.namespace))
  {
    var ix := Find(plan, id);
    var chosen := Choice(plan, id, on, namespace).next;
    var after := SettingsAfter(settings, plan, id, Accepted(chosen));
    hide Unique, Valid, HeldByAnother, Default;
    forall i | 0 <= i < ix
      ensures On(settings, servers[i]) == On(after, servers[i])
      ensures Wanted(settings, servers[i]) == Wanted(after, servers[i])
    {
      assert servers[i].id != id;
    }
    PlansAgree(settings, servers, plan, after, servers, next, ix);
    assert Held(plan)[..ix] == Held(plan[..ix]) && Held(next)[..ix] == Held(next[..ix]);
    if chosen == plan[ix].1 {
      PlansAgree(settings, servers, plan, settings, servers, next, ix + 1);
      assert next[ix] == next[..ix + 1][ix] && plan[ix] == plan[..ix + 1][ix];
    } else if Valid(chosen.namespace) {
      NotHeldBefore(settings, servers, plan, id, on, namespace);
      FreeStays(chosen.namespace, Held(plan)[..ix], next[ix].1.namespace);
    }
  }

  /** A server that is switched keeps its path exactly when the path may be chosen, or is what the
      server's name gives beside the servers before it; and then every server keeps its path. */
  lemma WhatSwitchingKeeps(settings: map<string, Included>, servers: seq<Record>, plan: seq<(string, Included)>,
                           id: string, on: bool, next: seq<(string, Included)>)
    requires DistinctIds(servers) && IsPlan(settings, servers, plan)
    requires Find(plan, id) < |plan| && plan[Find(plan, id)].1.on != on
    requires IsPlan(SettingsAfter(settings, plan, id, Choice(plan, id, Some(on), None)), servers, next)
    ensures var (ix, path) := (Find(plan, id), plan[Find(plan, id)].1.namespace);
            && (next[ix].1.namespace == path <==>
                  Valid(path) || Unique(Default(servers[ix].name), Held(plan)[..ix], path))
            && (next[ix].1.namespace == path <==> Held(next) == Held(plan))
  {
    var (ix, path) := (Find(plan, id), plan[Find(plan, id)].1.namespace);
    var after := SettingsAfter(settings, plan, id, Choice(plan, id, Some(on), None));
    TheNextPlan(settings, servers, plan, id, Some(on), None, next);
    if !Valid(path) && Unique(Default(servers[ix].name), Held(plan)[..ix], path) {
      UniqueIsUnique(Default(servers[ix].name), Held(plan)[..ix], path, next[ix].1.namespace);
    }
    if next[ix].1.namespace == path {
      forall i | 0 <= i < |plan| && i != ix ensures Wanted(settings, servers[i]) == Wanted(after, servers[i]) {
        assert servers[ix].id == id;
      }
      PathsAgree(settings, after, servers, plan, next, ix, |plan|);
      assert Held(plan)[..|plan|] == Held(plan) && Held(next)[..|plan|] == Held(next);
    } else {
      assert Held(plan)[ix] != Held(next)[ix];
    }
  }

  /** A server nothing was chosen for keeps its path when it is switched, however long the path is. */
  lemma SwitchingADefaultKeepsIt(settings: map<string, Included>, servers: seq<Record>, plan: seq<(string, Included)>,
                                 id: string, on: bool, next: seq<(string, Included)>)
    requires DistinctIds(servers) && IsPlan(settings, servers, plan)
    requires Find(plan, id) < |plan| && plan[Find(plan, id)].1.on != on && id !in settings
    requires IsPlan(SettingsAfter(settings, plan, id, Choice(plan, id, Some(on), None)), servers, next)
    ensures Held(next) == Held(plan)
  {
    WhatSwitchingKeeps(settings, servers, plan, id, on, next);
  }

  /** One that was given a number after a chosen path of 63 characters or more does not: here `b` was
      given `path`, which the name of `a`, before it, now makes too. */
  lemma ASwitchMovesALongPath(a: Record, b: Record, path: string,
                              plan: seq<(string, Included)>, next: seq<(string, Included)>)
    requires a.id != b.id && Valid(path) && |path| >= 63 && Default(a.name) == path != Default(b.name)
    requires IsPlan(map[b.id := Included(true, path)], [a, b], plan)
    requires IsPlan(SettingsAfter(map[b.id := Included(true, path)], plan, b.id,
                                  Choice(plan, b.id, Some(false), None)), [a, b], next)
    ensures plan[1] == (b.id, Included(true, Numbered(path, 2)))
    ensures next[1] == (b.id, Included(false, Default(b.name)))
    ensures plan[1].1.namespace != next[1].1.namespace
  {
    var settings := map[b.id := Included(true, path)];
    hide Default;
    assert Held(plan)[..0] == [];
    assert Held(plan)[..1] == [plan[0].1.namespace];
    FreeStays(path, [], plan[0].1.namespace);
    assert |Numbered(path, 2)| > |path|;
    assert FirstFree(path, [path], 2);
    UniqueIsUnique(path, [path], plan[1].1.namespace, Numbered(path, 2));
    assert Find(plan, b.id) == 1 by {
      assert plan[0].0 != b.id;
    }
    TheNextPlan(settings, [a, b], plan, b.id, Some(false), None, next);
    FreeStays(Default(b.name), [path], next[1].1.namespace);
    assert |Default(b.name)| <= MAX_LENGTH by {
      DefaultIsValid(b.name);
    }
  }

  /** Such servers: the name of one is 64 letters, and the other's is another. */
  lemma SuchNames()
    ensures var path := seq(MAX_LENGTH, _ => 'a'); Valid(path) && Default(path) == path != Default("b")
  {
    DefaultKeepsNamespaces(seq(MAX_LENGTH, _ => 'a'));
    DefaultKeepsNamespaces("b");
  }

  lemma FreeStays(base: string, taken: seq<string>, r: string)
    requires Unique(base, taken, r) && base !in taken
    ensures r == base
  {
  }

  lemma NotHeldBefore(settings: map<string, Included>, servers: seq<Record>, plan: seq<(string, Included)>,
                      id: string, on: Option<bool>, namespace: Option<string>)
    requires IsPlan(settings, servers, plan) && Choice(plan, id, on, namespace).Accepted?
    ensures Choice(plan, id, on, namespace).next.namespace !in Held(plan)[..Find(plan, id)]
  {
    var (ix, chosen) := (Find(plan, id), Choice(plan, id, on, namespace).next);
    forall i | 0 <= i < ix ensures Held(plan)[..ix][i] != chosen.namespace {
      assert plan[i].0 != id;
      NamespacesDiffer(settings, servers, plan, i, ix);
    }
  }

  /** What two servers whose names make the same namespace are given. */
  lemma TwoOfAName(settings: map<string, Included>, a: Record, b: Record, plan: seq<(string, Included)>)
    requires IsPlan(settings, [a, b], plan) && Wanted(settings, b) == Default(b.name)
    ensures plan[0].1.namespace == Wanted(settings, a)
    ensures plan[1].1.namespace
         == if plan[0].1.namespace == Default(b.name) then Numbered(Default(b.name), 2) else Default(b.name)
  {
    hide Default, Wanted, Valid;
    assert Held(plan)[..0] == [];
    assert Held(plan)[..1] == [plan[0].1.namespace];
    FreeStays(Wanted(settings, a), [], plan[0].1.namespace);
    var d := Default(b.name);
    if plan[0].1.namespace == d {
      assert |Numbered(d, 2)| > |d|;
      assert FirstFree(d, [d], 2);
      UniqueIsUnique(d, [d], plan[1].1.namespace, Numbered(d, 2));
    }
  }

  /** A later server can move: once the path its name asks for is free, it takes it. */
  lemma ALaterServerMoves(a: Record, b: Record, path: string, first: seq<(string, Included)>,
                          second: seq<(string, Included)>)
    requires a.id != b.id && Default(a.name) == Default(b.name) && Valid(path) && path != Default(a.name)
    requires IsPlan(map[], [a, b], first)
    requires IsPlan(map[a.id := Included(true, path)], [a, b], second)
    ensures first[1].1.namespace == Numbered(Default(b.name), 2) && second[1].1.namespace == Default(b.name)
  {
    TwoOfAName(map[], a, b, first);
    TwoOfAName(map[a.id := Included(true, path)], a, b, second);
  }
}
