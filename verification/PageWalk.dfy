/**
 Walking the account list by `next_cursor`. The table may change between requests in any way; `view(i)` is the
 set of ids that match the filters at the i-th request.
 */
module PageWalk {
  import opened Prelude
  import opened Keyset

  datatype Page = Page(items: seq<int>, next: Option<int>)

  /** One request: one row more than the limit is fetched, to see whether more remain. */
  function ListAccounts(ids: set<int>, cursor: int, limit: nat): Page
    requires limit >= 1
  {
    var rows := Select(ids, cursor, limit + 1);
    if |rows| > limit then Page(rows[..limit], Some(rows[limit - 1])) else Page(rows, None)
  }

  /** A page holds matching ids above the cursor, and all of them up to its bound. */
  predicate Holds(items: seq<int>, ids: set<int>, cursor: int, bound: int) {
    && Increasing(items)
    && (forall id :: id in items ==> id in ids && cursor < id <= bound)
    && (forall id :: id in ids && cursor < id <= bound ==> id in items)
  }

  /** What a page must be: it ends at `next`, beyond which more ids match, or holds all there is. */
  predicate PageOk(page: Page, ids: set<int>, cursor: int) {
    match page.next
    case None => Holds(page.items, ids, cursor, MaxOrZero(ids))
    case Some(next) => next > cursor && next < MaxOrZero(ids) && Holds(page.items, ids, cursor, next)
  }

  /** The query answers with such pages. */
  lemma PageIs(ids: set<int>, cursor: int, limit: nat)
    requires limit >= 1
    ensures var page := ListAccounts(ids, cursor, limit);
            && PageOk(page, ids, cursor)
            && |page.items| <= limit && (page.next.Some? ==> |page.items| == limit)
  {
    var rows := Select(ids, cursor, limit + 1);
    if |rows| > limit {
      assert rows[limit - 1] in rows && rows[limit] in rows && rows[limit - 1] < rows[limit];
      FullPage(ids, cursor, limit, rows);
    } else {
      LastPage(ids, cursor, limit, rows);
    }
  }

  lemma LastPage(ids: set<int>, cursor: int, limit: nat, rows: seq<int>)
    requires rows == Select(ids, cursor, limit + 1) && |rows| <= limit
    ensures Holds(rows, ids, cursor, MaxOrZero(ids))
  {
    assert forall id :: id in ids && id > cursor ==> Reached(rows, limit + 1, id);
  }

  lemma FullPage(ids: set<int>, cursor: int, limit: nat, rows: seq<int>)
    requires rows == Select(ids, cursor, limit + 1) && |rows| == limit + 1 && limit >= 1
    ensures Holds(rows[..limit], ids, cursor, rows[limit - 1])
  {
    var items := rows[..limit];
    forall id | id in items ensures id in ids && cursor < id <= rows[limit - 1] {
      var k :| 0 <= k < limit && items[k] == id;
      assert rows[k] in rows;
    }
    forall id | id in ids && cursor < id <= rows[limit - 1] ensures id in items {
      assert rows[limit - 1] < rows[limit] && Reached(rows, limit + 1, id);
      var k :| 0 <= k < |rows| && rows[k] == id;
      assert items[k] == id;
    }
  }

  // ----- The walk

  /** The ids seen in up to `n` requests, and whether the last of them said there is no more. */
  datatype Seen = Seen(ids: seq<int>, finished: bool)

  /** Following `next` from `cursor`, where `answer(j, c)` is the answer to the `j`-th request, with cursor `c`. */
  function Walk(answer: (nat, int) -> Page, i: nat, cursor: int, n: nat): Seen
    decreases n
  {
    if n == 0 then Seen([], false)
    else
      var page := answer(i, cursor);
      if page.next == None then Seen(page.items, true)
      else
        var rest := Walk(answer, i + 1, page.next.value, n - 1);
        Seen(page.items + rest.ids, rest.finished)
  }

  /** The server's answers when `view(i)` is the set of matching ids at the `i`-th request. */
  function Server(view: nat -> set<int>, limit: nat): (nat, int) -> Page
    requires limit >= 1
  {
    (i: nat, cursor: int) => ListAccounts(view(i), cursor, limit)
  }

  /** `id` matches the filters at each of these requests. */
  predicate Throughout(view: nat -> set<int>, id: int, i: nat, n: nat) {
    forall j :: i <= j < i + n ==> id in view(j)
  }

  ghost predicate Answers(answer: (nat, int) -> Page, view: nat -> set<int>) {
    forall i, cursor :: PageOk(answer(i, cursor), view(i), cursor)
  }

  lemma {:induction false} WalkAscends(answer: (nat, int) -> Page, view: nat -> set<int>, i: nat, cursor: int, n: nat)
    requires Answers(answer, view)
    ensures var w := Walk(answer, i, cursor, n);
            Increasing(w.ids) && forall id :: id in w.ids ==> id > cursor
    decreases n
  {
    if n > 0 {
      var page := answer(i, cursor);
      assert PageOk(page, view(i), cursor);
      if page.next.Some? {
        WalkAscends(answer, view, i + 1, page.next.value, n - 1);
        IncreasingAppend(page.items, Walk(answer, i + 1, page.next.value, n - 1).ids, page.next.value);
      }
    }
  }

  lemma {:induction false} WalkSkipsNone(
    answer: (nat, int) -> Page, view: nat -> set<int>, i: nat, cursor: int, n: nat, id: int)
    requires Answers(answer, view)
    requires Walk(answer, i, cursor, n).finished && id > cursor && Throughout(view, id, i, n)
    ensures id in Walk(answer, i, cursor, n).ids
    decreases n
  {
    var page := answer(i, cursor);
    assert PageOk(page, view(i), cursor);
    assert id in view(i);
    if page.next.Some? && id > page.next.value {
      WalkSkipsNone(answer, view, i + 1, page.next.value, n - 1, id);
    }
  }

  lemma {:induction false} WalkShowsMatches(
    answer: (nat, int) -> Page, view: nat -> set<int>, i: nat, cursor: int, n: nat, id: int)
    requires Answers(answer, view) && id in Walk(answer, i, cursor, n).ids
    ensures exists j :: i <= j < i + n && id in view(j)
    decreases n
  {
    if n > 0 {
      var page := answer(i, cursor);
      assert PageOk(page, view(i), cursor);
      if id in page.items {
        assert id in view(i);
      } else {
        WalkShowsMatches(answer, view, i + 1, page.next.value, n - 1, id);
      }
    }
  }

  lemma {:induction false} WalkStops(
    answer: (nat, int) -> Page, view: nat -> set<int>, i: nat, cursor: int, n: nat, top: int)
    requires Answers(answer, view) && n > 0 && cursor + n > top >= 0
    requires forall j, id :: i <= j && id in view(j) ==> id <= top
    ensures Walk(answer, i, cursor, n).finished
    decreases n
  {
    var page := answer(i, cursor);
    assert PageOk(page, view(i), cursor);
    if page.next.Some? {
      assert MaxOrZero(view(i)) <= top;
      WalkStops(answer, view, i + 1, page.next.value, n - 1, top);
    }
  }

  lemma ServerAnswers(view: nat -> set<int>, limit: nat)
    requires limit >= 1
    ensures Answers(Server(view, limit), view)
  {
    forall i, cursor ensures PageOk(Server(view, limit)(i, cursor), view(i), cursor) {
      PageIs(view(i), cursor, limit);
    }
  }

  /**
   However the table changes between the requests, the walk from 0 shows ids in ascending order, so none twice,
   each of which matched when it was shown; when it has finished, no account that matched throughout was
   skipped; and it finishes, as long as the ids that ever match are bounded.
   */
  lemma WalkIsComplete(view: nat -> set<int>, limit: nat, n: nat)
    requires limit >= 1
    ensures var w := Walk(Server(view, limit), 0, 0, n);
            && Increasing(w.ids)
            && (forall id :: id in w.ids ==> exists j :: 0 <= j < n && id in view(j))
            && (w.finished ==> forall id :: id > 0 && Throughout(view, id, 0, n) ==> id in w.ids)
            && ((forall j: nat, id :: id in view(j) ==> id < n) ==> n == 0 || w.finished)
  {
    var answer := Server(view, limit);
    ServerAnswers(view, limit);
    WalkAscends(answer, view, 0, 0, n);
    forall id | id in Walk(answer, 0, 0, n).ids ensures exists j :: 0 <= j < n && id in view(j) {
      WalkShowsMatches(answer, view, 0, 0, n, id);
    }
    forall id | Walk(answer, 0, 0, n).finished && id > 0 && Throughout(view, id, 0, n)
      ensures id in Walk(answer, 0, 0, n).ids
    {
      WalkSkipsNone(answer, view, 0, 0, n, id);
    }
    if n > 0 && forall j: nat, id :: id in view(j) ==> id < n {
      WalkStops(answer, view, 0, 0, n, n - 1);
    }
  }

  /** On a table at rest the walk is the ascending enumeration of the matching ids, each once. */
  lemma StaticWalk(ids: set<int>, limit: nat, n: nat)
    requires limit >= 1 && n > 0 && forall id :: id in ids ==> 0 < id < n
    ensures var w := Walk(Server(_ => ids, limit), 0, 0, n);
            w.finished && Increasing(w.ids) && forall id :: id in w.ids <==> id in ids
  {
    var view: nat -> set<int> := _ => ids;
    WalkIsComplete(view, limit, n);
    forall id | id in ids ensures Throughout(view, id, 0, n) {
    }
  }
}
