/** Saving the servers a client configuration names, all or none, with the tokens the file carried. */
module Import {
  import opened Canonical
  import opened Config
  import opened Json

  datatype Row = Row(name: string, spec: Spec)

  datatype Result = Saved(names: seq<string>) | Failed

  // --- The database and the keyring: what they do is theirs to decide ---

  class Store {
    var rows: seq<Row>

    predicate Has(name: string)
      reads this
    {
      exists i :: 0 <= i < |rows| && rows[i].name == name
    }

    method Find(name: string) returns (read: bool, found: bool)
      ensures read ==> found == Has(name)
    {
      read, found := *, exists i | 0 <= i < |rows| :: rows[i].name == name;
    }

    /** One transaction. */
    method AddServers(batch: seq<Row>) returns (ok: bool)
      modifies this
      ensures rows == if ok then old(rows) + batch else old(rows)
    {
      ok := *;
      if ok {
        rows := rows + batch;
      }
    }
  }

  class Keyring {
    var entries: map<string, string>

    method Set(id: string, token: string) returns (ok: bool)
      modifies this
      ensures entries == if ok then old(entries)[id := token] else old(entries)
    {
      ok := *;
      if ok {
        entries := entries[id := token];
      }
    }

    method Delete(id: string) returns (ok: bool)
      modifies this
      ensures entries == if ok then old(entries) - {id} else old(entries)
    {
      ok := *;
      if ok {
        entries := entries - {id};
      }
    }
  }

  // --- What a complete import comes to ---

  predicate NeedsId(spec: Spec) {
    spec.Http? && !spec.auth.NoAuth?
  }

  function IdOf(spec: Spec): Option<string> {
    if NeedsId(spec) then Some(spec.auth.keyringId) else None
  }

  function WithId(spec: Spec, id: string): Spec {
    if !NeedsId(spec) then spec
    else spec.(auth := if spec.auth.Bearer? then Bearer(id) else OAuth(id))
  }

  /** How many of the first servers needed a keyring id. */
  function Ids(servers: seq<Imported>): nat {
    if servers == [] then 0
    else Ids(servers[..|servers| - 1]) + if NeedsId(servers[|servers| - 1].spec) then 1 else 0
  }

  /** The rows: each server's spec, under the keyring ids handed out in turn. */
  function RowsOf(servers: seq<Imported>, ids: nat -> string): seq<Row> {
    if servers == [] then []
    else
      var (before, last) := (servers[..|servers| - 1], servers[|servers| - 1]);
      RowsOf(before, ids) + [Row(last.name, WithId(last.spec, ids(Ids(before))))]
  }

  /** The keyring entries written: the tokens of the servers that have one and an id for it. */
  function TokensOf(servers: seq<Imported>, ids: nat -> string): map<string, string> {
    if servers == [] then map[]
    else
      var (before, last) := (servers[..|servers| - 1], servers[|servers| - 1]);
      if NeedsId(last.spec) && last.token.Some? then TokensOf(before, ids)[ids(Ids(before)) := last.token.value]
      else TokensOf(before, ids)
  }

  function OneToken(server: Imported, id: string): map<string, string> {
    if NeedsId(server.spec) && server.token.Some? then map[id := server.token.value] else map[]
  }

  /** The servers whose names are not saved yet, in order. */
  function NewOnes(servers: seq<Imported>, saved: set<string>): seq<Imported> {
    if servers == [] then []
    else
      var last := servers[|servers| - 1];
      NewOnes(servers[..|servers| - 1], saved) + if last.name in saved then [] else [last]
  }

  function Names(servers: seq<Imported>): seq<string> {
    seq(|servers|, i requires 0 <= i < |servers| => servers[i].name)
  }

  function SavedNames(rows: seq<Row>): set<string> {
    set i | 0 <= i < |rows| :: rows[i].name
  }

  /** No id is handed out twice, and none is in the keyring. */
  ghost predicate FreshIds(ids: nat -> string, entries: map<string, string>) {
    (forall m, n :: ids(m) == ids(n) ==> m == n) && forall n :: ids(n) !in entries
  }

  lemma {:induction false} TokenIdsAreHandedOut(servers: seq<Imported>, ids: nat -> string)
    ensures forall id :: id in TokensOf(servers, ids) ==> exists n: nat :: n < Ids(servers) && id == ids(n)
  {
    if servers != [] {
      var before := servers[..|servers| - 1];
      TokenIdsAreHandedOut(before, ids);
      forall id | id in TokensOf(servers, ids) ensures exists n: nat :: n < Ids(servers) && id == ids(n) {
        if id in TokensOf(before, ids) {
          var n: nat :| n < Ids(before) && id == ids(n);
          assert n < Ids(servers);
        } else {
          assert Ids(before) < Ids(servers);
        }
      }
    }
  }

  lemma {:induction false} RowsFollow(servers: seq<Imported>, ids: nat -> string)
    ensures |RowsOf(servers, ids)| == |servers|
    ensures forall i :: 0 <= i < |servers| ==>
              RowsOf(servers, ids)[i] == Row(servers[i].name, WithId(servers[i].spec, ids(Ids(servers[..i]))))
  {
    hide WithId, Ids;
    if servers != [] {
      var n := |servers| - 1;
      RowsFollow(servers[..n], ids);
      assert forall i :: 0 <= i < n ==> servers[..n][..i] == servers[..i];
    }
  }

  lemma {:induction false} IdsGrow(servers: seq<Imported>, i: nat, j: nat)
    requires i <= j <= |servers|
    ensures Ids(servers[..i]) <= Ids(servers[..j])
    ensures i < j && NeedsId(servers[i].spec) ==> Ids(servers[..i]) < Ids(servers[..j])
  {
    if i < j {
      IdsGrow(servers, i, j - 1);
      assert servers[..j][..j - 1] == servers[..j - 1];
    }
  }

  /** On success every server with a token has it in the keyring, under an id its row names and no
      other row does; it needs to be a bearer server, as every server read with a token is. */
  lemma NoTokenIsLost(servers: seq<Imported>, ids: nat -> string, entries: map<string, string>, i: nat)
    requires FreshIds(ids, entries) && i < |servers| && servers[i].token.Some?
    requires servers[i].spec.Http? && servers[i].spec.auth.Bearer?
    ensures |RowsOf(servers, ids)| == |servers|
    ensures var (row, id) := (RowsOf(servers, ids)[i], ids(Ids(servers[..i])));
            && row == Row(servers[i].name, servers[i].spec.(auth := Bearer(id)))
            && id in TokensOf(servers, ids) && TokensOf(servers, ids)[id] == servers[i].token.value && id !in entries
            && (forall j :: 0 <= j < |servers| && j != i ==> IdOf(RowsOf(servers, ids)[j].spec) != Some(id))
  {
    RowsFollow(servers, ids);
    TokenStays(servers, ids, i);
    forall j | 0 <= j < |servers| && j != i ensures IdOf(RowsOf(servers, ids)[j].spec) != Some(ids(Ids(servers[..i]))) {
      if j < i {
        IdsGrow(servers, j, i);
      } else {
        IdsGrow(servers, i, j);
      }
    }
  }

  lemma {:induction false} TokenStays(servers: seq<Imported>, ids: nat -> string, i: nat)
    requires forall m, n :: ids(m) == ids(n) ==> m == n
    requires i < |servers| && NeedsId(servers[i].spec) && servers[i].token.Some?
    ensures ids(Ids(servers[..i])) in TokensOf(servers, ids)
    ensures TokensOf(servers, ids)[ids(Ids(servers[..i]))] == servers[i].token.value
  {
    var n := |servers| - 1;
    if i < n {
      assert servers[..n][..i] == servers[..i];
      TokenStays(servers[..n], ids, i);
      IdsGrow(servers, i, n);
    }
  }

  lemma {:induction false} NewOnesAreRead(servers: seq<Imported>, saved: set<string>, i: nat)
    requires i < |NewOnes(servers, saved)|
    ensures NewOnes(servers, saved)[i] in servers && NewOnes(servers, saved)[i].name !in saved
  {
    if servers != [] {
      var before := servers[..|servers| - 1];
      if i < |NewOnes(before, saved)| {
        NewOnesAreRead(before, saved, i);
      }
    }
  }

  /** No server that is new is left out, and they keep their order. */
  lemma {:induction false} NewOnesAreAll(servers: seq<Imported>, saved: set<string>, i: nat)
    requires i < |servers| && servers[i].name !in saved
    ensures var k := |NewOnes(servers[..i], saved)|;
            k < |NewOnes(servers, saved)| && NewOnes(servers, saved)[k] == servers[i]
  {
    var n := |servers| - 1;
    if i < n {
      assert servers[..n][..i] == servers[..i];
      NewOnesAreAll(servers[..n], saved, i);
    }
  }

  /** So every server read whose name is not taken has its row, as it was read but for the keyring id. */
  lemma EveryNewServerHasItsRow(servers: seq<Imported>, saved: set<string>, ids: nat -> string, i: nat)
    requires i < |servers| && servers[i].name !in saved
    ensures var (rows, k) := (RowsOf(NewOnes(servers, saved), ids), |NewOnes(servers[..i], saved)|);
            && k < |rows| && rows[k].name == servers[i].name
            && match servers[i].spec
               case Stdio(_, _, _, _) => rows[k].spec == servers[i].spec
               case Http(_, _, NoAuth) => rows[k].spec == servers[i].spec
               case Http(url, headers, Bearer(_)) => rows[k].spec.Http? && rows[k].spec.auth.Bearer?
                                                     && rows[k].spec == Http(url, headers, rows[k].spec.auth)
               case Http(url, headers, OAuth(_)) => rows[k].spec.Http? && rows[k].spec.auth.OAuth?
                                                    && rows[k].spec == Http(url, headers, rows[k].spec.auth)
  {
    NewOnesAreAll(servers, saved, i);
    RowsFollow(NewOnes(servers, saved), ids);
    hide NewOnes, RowsOf;
  }

  /** Of the servers read from a file, none that is saved loses its token. */
  lemma FileTokensAreSaved(entries: seq<(string, Value)>, saved: set<string>, ids: nat -> string,
                           kept: map<string, string>, i: nat)
    requires FreshIds(ids, kept)
    requires i < |NewOnes(ReadAll(entries).servers, saved)| && NewOnes(ReadAll(entries).servers, saved)[i].token.Some?
    ensures var added := NewOnes(ReadAll(entries).servers, saved);
            var id := ids(Ids(added[..i]));
            && |RowsOf(added, ids)| == |added| && IdOf(RowsOf(added, ids)[i].spec) == Some(id)
            && id in TokensOf(added, ids) && TokensOf(added, ids)[id] == added[i].token.value
  {
    var (servers, added) := (ReadAll(entries).servers, NewOnes(ReadAll(entries).servers, saved));
    NewOnesAreRead(servers, saved, i);
    var k :| 0 <= k < |servers| && servers[k] == added[i];
    TokensMeanBearer(entries, k);
    NoTokenIsLost(added, ids, kept, i);
  }

  /** The entries in `written`, each once, are those of the tokens of `servers`. */
  ghost predicate TokenIds(ids: nat -> string, servers: seq<Imported>, written: seq<string>) {
    && (forall id :: id in TokensOf(servers, ids) <==> id in written)
    && forall i, j :: 0 <= i < j < |written| ==> written[i] != written[j]
  }

  lemma NothingWritten(ids: nat -> string)
    ensures TokensOf([], ids) == map[] && TokenIds(ids, [], []) && RowsOf([], ids) == [] && Ids([]) == 0
  {
  }

  lemma NextIdIsNew(ids: nat -> string, entries: map<string, string>, servers: seq<Imported>)
    requires FreshIds(ids, entries)
    ensures ids(Ids(servers)) !in TokensOf(servers, ids)
  {
    TokenIdsAreHandedOut(servers, ids);
  }

  lemma NextTokens(ids: nat -> string, before: seq<Imported>, server: Imported)
    ensures TokensOf(before + [server], ids) == TokensOf(before, ids) + OneToken(server, ids(Ids(before)))
    ensures RowsOf(before + [server], ids)
          == RowsOf(before, ids) + [Row(server.name, WithId(server.spec, ids(Ids(before))))]
    ensures Ids(before + [server]) == Ids(before) + if NeedsId(server.spec) then 1 else 0
  {
    assert (before + [server])[..|before|] == before;
  }

  lemma NextTokenId(ids: nat -> string, entries: map<string, string>, before: seq<Imported>, server: Imported,
                    written: seq<string>)
    requires TokenIds(ids, before, written) && FreshIds(ids, entries)
    ensures if NeedsId(server.spec) && server.token.Some? then TokenIds(ids, before + [server],
                                                                        written + [ids(Ids(before))])
            else TokenIds(ids, before + [server], written)
  {
    NextIdIsNew(ids, entries, before);
    NextTokens(ids, before, server);
    hide TokensOf, FreshIds;
  }

  lemma MergeInTurn<K, V>(x: map<K, V>, y: map<K, V>, z: map<K, V>)
    ensures (x + y) + z == x + (y + z)
  {
  }

  class Importer {
    const store: Store
    const keyring: Keyring
    const ids: nat -> string

    constructor (store: Store, keyring: Keyring, ids: nat -> string)
      ensures this.store == store && this.keyring == keyring && this.ids == ids
    {
      this.store, this.keyring, this.ids := store, keyring, ids;
    }

    /** One server's spec under keyring id `id`, and its token written there. */
    method SaveOne(server: Imported, id: string) returns (row: Row, ok: bool, wrote: bool)
      modifies keyring
      ensures row == Row(server.name, WithId(server.spec, id))
      ensures ok ==> keyring.entries == old(keyring.entries) + OneToken(server, id)
      ensures ok ==> wrote == (NeedsId(server.spec) && server.token.Some?)
      ensures !ok ==> keyring.entries == old(keyring.entries)
    {
      row, ok, wrote := Row(server.name, server.spec), true, false;
      if NeedsId(server.spec) {
        row := Row(server.name, server.spec.(auth := if server.spec.auth.Bearer? then Bearer(id) else OAuth(id)));
        if server.token.Some? {
          ok := keyring.Set(id, server.token.value);
          wrote := true;
        }
      }
    }

    /** Writes the tokens, then the rows; `written` are the keyring entries written, those of the
        first `done` servers when it fails. */
    method Save(servers: seq<Imported>) returns (ok: bool, written: seq<string>, ghost done: nat)
      requires FreshIds(ids, keyring.entries)
      modifies store, keyring
      ensures ok ==>
                && store.rows == old(store.rows) + RowsOf(servers, ids)
                && keyring.entries == old(keyring.entries) + TokensOf(servers, ids)
      ensures !ok ==> store.rows == old(store.rows)
      ensures done <= |servers| && TokenIds(ids, servers[..done], written)
      ensures keyring.entries == old(keyring.entries) + TokensOf(servers[..done], ids)
    {
      hide TokensOf, TokenIds, OneToken, FreshIds, RowsOf, Ids, WithId, NeedsId;
      written, done := [], 0;
      var rows: seq<Row> := [];
      var next := 0;
      NothingWritten(ids);
      assert servers[..0] == [];
      for i := 0 to |servers|
        invariant store.rows == old(store.rows) && done == i
        invariant next == Ids(servers[..i]) && rows == RowsOf(servers[..i], ids) && TokenIds(ids, servers[..i], written)
        invariant keyring.entries == old(keyring.entries) + TokensOf(servers[..i], ids)
      {
        var (server, id) := (servers[i], ids(next));
        assert servers[..i + 1] == servers[..i] + [server];
        NextTokenId(ids, old(keyring.entries), servers[..i], server, written);
        NextTokens(ids, servers[..i], server);
        MergeInTurn(old(keyring.entries), TokensOf(servers[..i], ids), OneToken(server, id));
        var row, stored, wrote := SaveOne(server, id);
        if !stored {
          return false, written, done;
        }
        if wrote {
          written := written + [id];
        }
        if NeedsId(server.spec) {
          next := next + 1;
        }
        rows := rows + [row];
        done := done + 1;
      }
      assert servers[..|servers|] == servers;
      ok := store.AddServers(rows);
    }

    /** Deletes the entries written; returns those that could not be. */
    method TakeBack(written: seq<string>) returns (left: set<string>)
      requires forall i, j :: 0 <= i < j < |written| ==> written[i] != written[j]
      modifies keyring
      ensures left <= (set id | id in written)
      ensures keyring.entries == old(keyring.entries) - ((set id | id in written) - left)
    {
      left := {};
      for i := 0 to |written|
        invariant left <= (set id | id in written[..i])
        invariant keyring.entries == old(keyring.entries) - ((set id | id in written[..i]) - left)
      {
        var deleted := keyring.Delete(written[i]);
        assert forall id :: id in written[..i + 1] <==> id in written[..i] || id == written[i];
        if !deleted {
          left := left + {written[i]};
        }
      }
      assert written[..|written|] == written;
    }

    /** All the servers not saved yet, or none: whatever fails, the rows are as they were and so is the
        keyring, but for entries written that could not be deleted again. */
    method Import(servers: seq<Imported>) returns (result: Result, left: set<string>)
      requires FreshIds(ids, keyring.entries)
      modifies store, keyring
      ensures result.Saved? ==>
                var added := NewOnes(servers, SavedNames(old(store.rows)));
                && store.rows == old(store.rows) + RowsOf(added, ids)
                && keyring.entries == old(keyring.entries) + TokensOf(added, ids)
                && result.names == Names(added) && left == {}
      ensures result.Failed? ==>
                && store.rows == old(store.rows) && left !! old(keyring.entries.Keys)
                && keyring.entries - left == old(keyring.entries) && left <= keyring.entries.Keys
      ensures result.Failed? && left == {} ==> keyring.entries == old(keyring.entries)
    {
      hide TokensOf, RowsOf;
      left := {};
      var added := [];
      for i := 0 to |servers|
        invariant added == NewOnes(servers[..i], SavedNames(store.rows))
        invariant store.rows == old(store.rows) && keyring.entries == old(keyring.entries)
      {
        assert servers[..i + 1][..i] == servers[..i];
        var read, found := store.Find(servers[i].name);
        if !read {
          return Failed, {};
        }
        if !found {
          added := added + [servers[i]];
        }
      }
      assert servers[..|servers|] == servers;
      var ok, written, done := Save(added);
      if ok {
        return Saved(Names(added)), {};
      }
      result := Failed;
      ghost var tokens := TokensOf(added[..done], ids);
      NewEntries(ids, old(keyring.entries), added[..done]);
      left := TakeBack(written);
      Undone(old(keyring.entries), tokens, (set id | id in written), left);
    }
  }

  lemma NewEntries(ids: nat -> string, entries: map<string, string>, servers: seq<Imported>)
    requires FreshIds(ids, entries)
    ensures TokensOf(servers, ids).Keys !! entries.Keys
  {
    TokenIdsAreHandedOut(servers, ids);
  }

  /** Entries added and then taken out again, but for those left. */
  lemma Undone(entries: map<string, string>, tokens: map<string, string>, written: set<string>, left: set<string>)
    requires tokens.Keys == written && tokens.Keys !! entries.Keys && left <= written
    ensures var now := (entries + tokens) - (written - left); now - left == entries && left <= now.Keys
  {
    var now := (entries + tokens) - (written - left);
    assert now.Keys == entries.Keys + left;
    assert now - left == entries;
  }
}
