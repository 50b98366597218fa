/** Reading a list page by page, from a server that answers a cursor always the same way. */
module Pagination {
  import opened Json

  const MAX_LIST_PAGES: nat := 1000

  /** What a server answers one request for a page; `Unusable` is an error or another kind of answer. */
  datatype Reply<T> = Page(items: seq<T>, next: Option<string>) | Unusable

  datatype Failure = NoAnswer | OwnCursor | TooLong

  datatype Listing<T> = Listed(items: seq<T>) | Failed(why: Failure)

  /** The cursor of request `k`, when the list goes on that far. */
  function Cursor<T>(server: Option<string> -> Reply<T>, k: nat): Option<Option<string>> {
    if k == 0 then Some(None)
    else
      var before := Cursor(server, k - 1);
      if before.Some? && server(before.value).Page? && server(before.value).next.Some?
      then Some(server(before.value).next)
      else None
  }

  /** The list has exactly `n` pages. */
  predicate Ends<T(==)>(server: Option<string> -> Reply<T>, n: nat) {
    && n > 0 && Cursor(server, n - 1).Some?
    && server(Cursor(server, n - 1).value).Page? && server(Cursor(server, n - 1).value).next.None?
  }

  /** The items of the first `n` pages, in order. */
  function Items<T>(server: Option<string> -> Reply<T>, n: nat): seq<T> {
    if n == 0 then []
    else
      var last := Cursor(server, n - 1);
      Items(server, n - 1) + if last.Some? && server(last.value).Page? then server(last.value).items else []
  }

  /** One cursor leads to the same pages from wherever it comes. */
  lemma {:induction false} SameCursorSameRest<T>(server: Option<string> -> Reply<T>, i: nat, j: nat, m: nat)
    requires Cursor(server, i) == Cursor(server, j)
    ensures Cursor(server, i + m) == Cursor(server, j + m)
  {
    if m > 0 {
      SameCursorSameRest(server, i, j, m - 1);
    }
  }

  lemma {:induction false} CursorsBefore<T>(server: Option<string> -> Reply<T>, i: nat, j: nat)
    requires i <= j && Cursor(server, j).Some?
    ensures Cursor(server, i).Some?
    ensures i < j ==>
              && server(Cursor(server, i).value).Page?
              && Cursor(server, i + 1) == Some(server(Cursor(server, i).value).next)
    ensures i < j ==> server(Cursor(server, i).value).next.Some?
  {
    if i < j {
      CursorsBefore(server, i, j - 1);
    }
  }

  /** A list that ends never hands out a cursor twice. */
  lemma EndingNeverRepeats<T>(server: Option<string> -> Reply<T>, n: nat, i: nat, j: nat)
    requires Ends(server, n) && i < j < n
    ensures Cursor(server, i) != Cursor(server, j)
  {
    if Cursor(server, i) == Cursor(server, j) {
      var m := n - 1 - j;
      SameCursorSameRest(server, i, j, m);
      CursorsBefore(server, i + m, n - 1);
    }
  }

  /** The items of a list hold those of each page, after those of the pages before. */
  lemma {:induction false} ItemsHoldEveryPage<T>(server: Option<string> -> Reply<T>, n: nat, k: nat)
    requires k < n && Cursor(server, k).Some? && server(Cursor(server, k).value).Page?
    ensures Items(server, k) + server(Cursor(server, k).value).items <= Items(server, n)
    ensures Items(server, 0) == []
  {
    if k < n - 1 {
      ItemsHoldEveryPage(server, n - 1, k);
    }
  }

  /** The list, when it ends within the limit: its pages in order. Otherwise a failure, after no more
      requests than the limit. */
  method ListAll<T>(server: Option<string> -> Reply<T>) returns (result: Listing<T>, requests: nat)
    ensures requests <= MAX_LIST_PAGES
    ensures result.Listed? <==> exists n: nat :: n <= MAX_LIST_PAGES && Ends(server, n)
    ensures result.Listed? ==> Ends(server, requests) && result.items == Items(server, requests)
  {
    var items := [];
    var cursor: Option<string> := None;
    requests := 0;
    while requests < MAX_LIST_PAGES
      invariant requests <= MAX_LIST_PAGES
      invariant Cursor(server, requests) == Some(cursor) && items == Items(server, requests)
      invariant forall n: nat :: n <= requests ==> !Ends(server, n)
    {
      var answer := server(cursor);
      requests := requests + 1;
      if answer.Unusable? {
        NoEndAfter(server, requests);
        return Failed(NoAnswer), requests;
      }
      items := items + answer.items;
      if answer.next.None? {
        assert Ends(server, requests);
        return Listed(items), requests;
      }
      if cursor == answer.next {
        OwnCursorNeverEnds(server, requests - 1);
        return Failed(OwnCursor), requests;
      }
      assert !Ends(server, requests);
      cursor := answer.next;
    }
    result := Failed(TooLong);
  }

  /** Nothing follows a page that could not be read. */
  lemma NoEndAfter<T>(server: Option<string> -> Reply<T>, k: nat)
    requires k > 0 && Cursor(server, k - 1).Some? && server(Cursor(server, k - 1).value).Unusable?
    requires forall n: nat :: n < k ==> !Ends(server, n)
    ensures forall n: nat :: !Ends(server, n)
  {
    forall n: nat ensures !Ends(server, n) {
      if Ends(server, n) && n >= k {
        CursorsBefore(server, k - 1, n - 1);
      }
    }
  }

  /** A page answered with its own cursor is answered so for ever: giving up loses nothing. */
  lemma OwnCursorNeverEnds<T>(server: Option<string> -> Reply<T>, k: nat)
    requires Cursor(server, k).Some? && Cursor(server, k + 1) == Cursor(server, k)
    ensures forall n: nat :: !Ends(server, n)
  {
    forall n: nat ensures !Ends(server, n) {
      if Ends(server, n) {
        if k + 1 < n {
          EndingNeverRepeats(server, n, k, k + 1);
        } else {
          CursorsBefore(server, n - 1, k + 1);
        }
      }
    }
  }
}
