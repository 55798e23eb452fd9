/** Cursor pagination of the Done tasks of a board: backend/claude_hub/services/board_pagination.py.

    Times are integer ticks.  A cursor is what `decode_board_tasks_cursor` makes of it: the key of the
    last task shown, or a text that is blank or cannot be decoded. */
module BoardPagination {
  import opened Options

  const MAX_LIMIT := 100

  datatype Status = Done | Other(value: string)

  datatype Task = Task(id: string, updated: int, created: int, status: Status) {
    function Rank(): Key { Key(updated, created, id) }
  }

  datatype Key = Key(updated: int, created: int, id: string)

  datatype Cursor = NoCursor | Blank | Malformed | After(key: Key)

  datatype Page = Page(done: seq<Task>, hasMore: bool, next: Cursor)

  datatype Reply = Rejected(reason: string) | Whole(tasks: seq<Task>)
    | Board(tasks: seq<Task>, total: nat, hasMore: bool, next: Cursor, counts: map<Status, nat>)

  // ------------------------------------------------------------------ the order

  /** How strings compare: by code points, from the left. */
  predicate Earlier(a: string, b: string) {
    b != [] && (a == [] || a[0] < b[0] || (a[0] == b[0] && Earlier(a[1..], b[1..])))
  }

  /** `(-updated, created, id)` as tuples compare. */
  predicate Less(a: Key, b: Key) {
    || a.updated > b.updated
    || (a.updated == b.updated && a.created < b.created)
    || (a.updated == b.updated && a.created == b.created && Earlier(a.id, b.id))
  }

  lemma {:induction false} EarlierIsTotal(a: string, b: string)
    ensures !(Earlier(a, b) && Earlier(b, a))
    ensures Earlier(a, b) || Earlier(b, a) || a == b
    ensures a == b ==> !Earlier(a, b)
  {
    if a != [] && b != [] {
      EarlierIsTotal(a[1..], b[1..]);
      if a[0] == b[0] && a[1..] == b[1..] { assert a == [a[0]] + a[1..] == [b[0]] + b[1..] == b; }
    }
  }

  lemma {:induction false} EarlierTrans(a: string, b: string, c: string)
    requires Earlier(a, b) && Earlier(b, c)
    ensures Earlier(a, c)
  {
    if a != [] && a[0] == b[0] == c[0] { EarlierTrans(a[1..], b[1..], c[1..]); }
  }

  /** The keys are strictly and totally ordered, so no two different keys tie. */
  lemma LessIsTotal(a: Key, b: Key)
    ensures !(Less(a, b) && Less(b, a))
    ensures Less(a, b) || Less(b, a) || a == b
    ensures !Less(a, a)
  {
    EarlierIsTotal(a.id, b.id);
    EarlierIsTotal(a.id, a.id);
  }

  lemma LessTrans(a: Key, b: Key, c: Key)
    requires Less(a, b) && Less(b, c)
    ensures Less(a, c)
  {
    if a.updated == b.updated == c.updated && a.created == b.created == c.created { EarlierTrans(a.id, b.id, c.id); }
  }

  // ------------------------------------------------------------------ sorting

  function Insert(t: Task, xs: seq<Task>): seq<Task> {
    if xs == [] || !Less(xs[0].Rank(), t.Rank()) then [t] + xs else [xs[0]] + Insert(t, xs[1..])
  }

  /** `sorted(..., key=board_task_sort_key)`: stable. */
  function Sort(xs: seq<Task>): seq<Task> {
    if xs == [] then [] else Insert(xs[0], Sort(xs[1..]))
  }

  ghost predicate Sorted(xs: seq<Task>) {
    forall i, j | 0 <= i < j < |xs| :: !Less(xs[j].Rank(), xs[i].Rank())
  }

  /** Sorted, with no two tasks of one key. */
  ghost predicate Ranked(xs: seq<Task>) {
    forall i, j | 0 <= i < j < |xs| :: Less(xs[i].Rank(), xs[j].Rank())
  }

  lemma NotLessTrans(a: Key, b: Key, c: Key)
    requires !Less(b, a) && !Less(c, b)
    ensures !Less(c, a)
  {
    LessIsTotal(a, b);
    LessIsTotal(b, c);
    LessIsTotal(a, c);
    if Less(c, a) && Less(a, b) { LessTrans(c, a, b); }
  }

  lemma {:induction false} InsertSorts(t: Task, xs: seq<Task>)
    requires Sorted(xs)
    ensures Sorted(Insert(t, xs)) && multiset(Insert(t, xs)) == multiset(xs) + multiset{t}
  {
    hide Less;
    if xs == [] {
    } else if !Less(xs[0].Rank(), t.Rank()) {
      forall j | 0 <= j < |xs| ensures !Less(xs[j].Rank(), t.Rank()) {
        if j > 0 { NotLessTrans(t.Rank(), xs[0].Rank(), xs[j].Rank()); }
      }
    } else {
      var rest := Insert(t, xs[1..]);
      assert xs == [xs[0]] + xs[1..];
      assert forall k | 0 <= k < |xs[1..]| :: xs[1..][k] == xs[k + 1];
      InsertSorts(t, xs[1..]);
      LessIsTotal(xs[0].Rank(), t.Rank());
      forall j | 0 <= j < |rest| ensures !Less(rest[j].Rank(), xs[0].Rank()) {
        assert rest[j] in multiset(rest);
        assert rest[j] == t || rest[j] in xs[1..];
      }
    }
  }

  lemma {:induction false} SortSorts(xs: seq<Task>)
    ensures Sorted(Sort(xs)) && multiset(Sort(xs)) == multiset(xs)
  {
    if xs != [] {
      SortSorts(xs[1..]);
      InsertSorts(xs[0], Sort(xs[1..]));
      assert xs == [xs[0]] + xs[1..];
    }
  }

  ghost predicate DistinctIds(xs: seq<Task>) { forall i, j | 0 <= i < j < |xs| :: xs[i].id != xs[j].id }

  ghost predicate NoRepeats(xs: seq<Task>) { forall i, j | 0 <= i < j < |xs| :: xs[i].Rank() != xs[j].Rank() }

  lemma SortedRanked(xs: seq<Task>)
    requires Sorted(xs) && NoRepeats(xs)
    ensures Ranked(xs)
  {
    forall i, j | 0 <= i < j < |xs| ensures Less(xs[i].Rank(), xs[j].Rank()) {
      LessIsTotal(xs[i].Rank(), xs[j].Rank());
    }
  }

  lemma Prepend(t: Task, xs: seq<Task>)
    requires DistinctIds(xs) && forall x | x in xs :: x.id != t.id
    ensures DistinctIds([t] + xs)
  {
    assert forall k | 0 <= k < |xs| :: xs[k] in xs;
  }

  lemma {:induction false} InsertNew(t: Task, xs: seq<Task>)
    requires DistinctIds(xs) && forall x | x in xs :: x.id != t.id
    ensures DistinctIds(Insert(t, xs)) && forall x :: x in Insert(t, xs) <==> x == t || x in xs
  {
    Prepend(t, xs);
    if xs != [] {
      assert xs == [xs[0]] + xs[1..];
      assert forall k | 0 <= k < |xs[1..]| :: xs[1..][k] == xs[k + 1];
      InsertNew(t, xs[1..]);
      Prepend(xs[0], Insert(t, xs[1..]));
    }
  }

  /** With distinct identifiers the sorted list is strictly ranked and has the same tasks. */
  lemma {:induction false} SortRanks(xs: seq<Task>)
    requires DistinctIds(xs)
    ensures Ranked(Sort(xs)) && DistinctIds(Sort(xs)) && |Sort(xs)| == |xs| && forall x :: x in Sort(xs) <==> x in xs
  {
    SortDistinct(xs);
    SortSorts(xs);
    SortedRanked(Sort(xs));
    assert |multiset(Sort(xs))| == |multiset(xs)|;
  }

  lemma {:induction false} SortDistinct(xs: seq<Task>)
    requires DistinctIds(xs)
    ensures DistinctIds(Sort(xs)) && forall x :: x in Sort(xs) <==> x in xs
  {
    if xs != [] {
      assert xs == [xs[0]] + xs[1..];
      assert forall k | 0 <= k < |xs[1..]| :: xs[1..][k] == xs[k + 1];
      SortDistinct(xs[1..]);
      InsertNew(xs[0], Sort(xs[1..]));
    }
  }

  // ------------------------------------------------------------------ one page

  function Select(xs: seq<Task>, done: bool): seq<Task> {
    if xs == [] then [] else (if xs[0].status.Done? == done then [xs[0]] else []) + Select(xs[1..], done)
  }

  /** The first task ranked after the key, or the length. */
  function StartIndex(xs: seq<Task>, key: Key): (r: nat)
    ensures r <= |xs|
    ensures forall j | 0 <= j < r :: !Less(key, xs[j].Rank())
    ensures r < |xs| ==> Less(key, xs[r].Rank())
  {
    if xs == [] then 0 else if Less(key, xs[0].Rank()) then 0 else 1 + StartIndex(xs[1..], key)
  }

  function Min(a: nat, b: nat): nat { if a < b then a else b }

  /** The cursor a page is given after `key`: identifiers are not empty, or it could not be decoded. */
  function Encode(key: Key): Cursor { if key.id == "" then Malformed else After(key) }

  /** `_paginate_done_slice` on a cursor that can be decoded. */
  function Slice(sortedDone: seq<Task>, limit: nat, cursor: Option<Key>): Page {
    var start := if cursor.Some? then StartIndex(sortedDone, cursor.value) else 0;
    var page := sortedDone[start..start + Min(limit, |sortedDone| - start)];
    var hasMore := start + limit < |sortedDone|;
    Page(page, hasMore, if hasMore && page != [] then Encode(page[|page| - 1].Rank()) else NoCursor)
  }

  predicate Follows(t: Task, cursor: Option<Key>) { cursor.Some? ==> Less(cursor.value, t.Rank()) }

  /** The tasks after the cursor, in the order of the list. */
  function Rest(xs: seq<Task>, cursor: Option<Key>): seq<Task> {
    if xs == [] then [] else (if Follows(xs[0], cursor) then [xs[0]] else []) + Rest(xs[1..], cursor)
  }

  lemma {:induction false} RestAll(xs: seq<Task>, cursor: Option<Key>)
    requires forall x | x in xs :: Follows(x, cursor)
    ensures Rest(xs, cursor) == xs
  {
    if xs != [] {
      assert xs == [xs[0]] + xs[1..];
      RestAll(xs[1..], cursor);
    }
  }

  /** In a ranked list what follows a key is a suffix. */
  lemma {:induction false} RestIsSuffix(xs: seq<Task>, cursor: Option<Key>)
    requires Ranked(xs)
    ensures Rest(xs, cursor) == xs[if cursor.Some? then StartIndex(xs, cursor.value) else 0..]
  {
    if xs != [] {
      assert xs == [xs[0]] + xs[1..];
      if Follows(xs[0], cursor) {
        forall x | x in xs ensures Follows(x, cursor) {
          var k :| 0 <= k < |xs| && xs[k] == x;
          if cursor.Some? && k > 0 { LessTrans(cursor.value, xs[0].Rank(), xs[k].Rank()); }
        }
        RestAll(xs, cursor);
      } else {
        RestIsSuffix(xs[1..], cursor);
      }
    }
  }

  lemma {:induction false} InRest(xs: seq<Task>, cursor: Option<Key>, t: Task)
    ensures t in Rest(xs, cursor) <==> t in xs && Follows(t, cursor)
  {
    if xs != [] {
      assert xs == [xs[0]] + xs[1..];
      InRest(xs[1..], cursor, t);
    }
  }

  /** A page holds exactly the first `limit` tasks of the list that follow the cursor, says whether there
      are more, and if so names the last one shown. */
  lemma SliceIsFirstAfter(xs: seq<Task>, limit: nat, cursor: Option<Key>)
    requires Ranked(xs) && limit > 0
    ensures var p, rest := Slice(xs, limit, cursor), Rest(xs, cursor);
            && p.done == rest[..Min(limit, |rest|)]
            && (p.hasMore <==> |rest| > limit)
            && (p.next == if p.hasMore then Encode(rest[limit - 1].Rank()) else NoCursor)
  {
    hide Less, Ranked, Rest, Follows, Encode, StartIndex;
    RestIsSuffix(xs, cursor);
    var start := if cursor.Some? then StartIndex(xs, cursor.value) else 0;
    var rest := Rest(xs, cursor);
    assert rest == xs[start..];
    assert xs[start..start + Min(limit, |xs| - start)] == rest[..Min(limit, |rest|)];
  }

  // ------------------------------------------------------------------ a walk over an unchanged board

  /** Following `next` until there is no more. */
  function Walk(xs: seq<Task>, limit: nat, cursor: Option<Key>): seq<Page>
    requires Ranked(xs) && limit > 0
    decreases |Rest(xs, cursor)|
  {
    var p := Slice(xs, limit, cursor);
    if p.next.After? then
      NextIsFurther(xs, limit, cursor);
      [p] + Walk(xs, limit, Some(p.next.key))
    else [p]
  }

  lemma StartsBehind(xs: seq<Task>, i: nat)
    requires Ranked(xs) && i < |xs|
    ensures StartIndex(xs, xs[i].Rank()) == i + 1
    ensures Rest(xs, Some(xs[i].Rank())) == xs[i + 1..]
  {
    hide Less, Rest;
    var key := xs[i].Rank();
    LessIsTotal(key, key);
    var r := StartIndex(xs, key);
    if r < i { LessIsTotal(xs[r].Rank(), key); }
    RestIsSuffix(xs, Some(key));
  }

  lemma NextIsFurther(xs: seq<Task>, limit: nat, cursor: Option<Key>)
    requires Ranked(xs) && limit > 0 && Slice(xs, limit, cursor).next.After?
    ensures var rest, key := Rest(xs, cursor), Slice(xs, limit, cursor).next.key;
            && |rest| > limit && key == rest[limit - 1].Rank() && Rest(xs, Some(key)) == rest[limit..]
  {
    hide Less, Ranked, Slice, Rest;
    SliceIsFirstAfter(xs, limit, cursor);
    RestIsSuffix(xs, cursor);
    var start := if cursor.Some? then StartIndex(xs, cursor.value) else 0;
    var rest := Rest(xs, cursor);
    assert rest == xs[start..] && |rest| > limit;
    assert xs[start + limit - 1] == rest[limit - 1];
    StartsBehind(xs, start + limit - 1);
  }

  function Pages(n: nat, limit: nat): nat
    requires limit > 0
  {
    if n <= limit then 1 else 1 + Pages(n - limit, limit)
  }

  /** `max(1, ceil(n / limit))`: the least number of pages, but one at least, that have room for `n`. */
  lemma {:induction false} PagesAreFewest(n: nat, limit: nat)
    requires limit > 0
    ensures var m := Pages(n, limit); m >= 1 && n <= m * limit && (m > 1 ==> (m - 1) * limit < n)
  {
    if n > limit {
      PagesAreFewest(n - limit, limit);
      var m := Pages(n - limit, limit);
      assert (m + 1) * limit == m * limit + limit;
      assert m > 1 ==> m * limit == (m - 1) * limit + limit;
    }
  }

  function Shown(pages: seq<Page>): seq<Task> {
    if pages == [] then [] else pages[0].done + Shown(pages[1..])
  }

  /** No page that another one follows would end in a task without an identifier, for which no cursor can
      be decoded. */
  predicate CutsHaveIds(xs: seq<Task>, limit: nat)
    requires limit > 0
  {
    |xs| <= limit || (xs[limit - 1].id != "" && CutsHaveIds(xs[limit..], limit))
  }

  lemma ShownMore(p: Page, more: seq<Page>)
    ensures Shown([p] + more) == p.done + Shown(more)
  {
    assert ([p] + more)[1..] == more;
  }

  /** The first cut, and those of what comes after it. */
  lemma CutOnce(rest: seq<Task>, limit: nat)
    requires limit > 0
    ensures |rest| <= limit ==> CutsHaveIds(rest, limit) && Pages(|rest|, limit) == 1
    ensures |rest| > limit ==>
              && (CutsHaveIds(rest, limit) <==> rest[limit - 1].id != "" && CutsHaveIds(rest[limit..], limit))
              && Pages(|rest|, limit) == 1 + Pages(|rest[limit..]|, limit)
  {
  }

  lemma WalkOnce(xs: seq<Task>, limit: nat, cursor: Option<Key>)
    requires Ranked(xs) && limit > 0
    ensures var p, rest := Slice(xs, limit, cursor), Rest(xs, cursor);
            && p.done == rest[..Min(limit, |rest|)]
            && (p.hasMore <==> |rest| > limit)
            && (p.next.After? <==> |rest| > limit && rest[limit - 1].id != "")
            && (!p.next.After? ==> Walk(xs, limit, cursor) == [p])
            && (p.next.After? ==>
                  && Rest(xs, Some(p.next.key)) == rest[limit..]
                  && Walk(xs, limit, cursor) == [p] + Walk(xs, limit, Some(p.next.key)))
  {
    hide Slice, Rest, Ranked, StartIndex, Less;
    SliceIsFirstAfter(xs, limit, cursor);
    if Slice(xs, limit, cursor).next.After? { NextIsFurther(xs, limit, cursor); }
  }

  lemma {:induction false} WalkShowsRest(xs: seq<Task>, limit: nat, cursor: Option<Key>)
    requires Ranked(xs) && limit > 0
    ensures var pages, rest := Walk(xs, limit, cursor), Rest(xs, cursor);
            && |pages| > 0
            && (forall k | 0 <= k < |pages| - 1 :: pages[k].hasMore)
            && (pages[|pages| - 1].hasMore <==> !CutsHaveIds(rest, limit))
            && Shown(pages) <= rest
            && (CutsHaveIds(rest, limit) ==> Shown(pages) == rest && |pages| == Pages(|rest|, limit))
    decreases |Rest(xs, cursor)|
  {
    hide Slice, Rest, Ranked, Walk, Shown, CutsHaveIds, Pages, StartIndex, Less;
    var p, rest := Slice(xs, limit, cursor), Rest(xs, cursor);
    WalkOnce(xs, limit, cursor);
    CutOnce(rest, limit);
    if p.next.After? {
      WalkShowsRest(xs, limit, Some(p.next.key));
      var more := Walk(xs, limit, Some(p.next.key));
      ShownMore(p, more);
      assert p.done == rest[..limit] && rest == rest[..limit] + rest[limit..];
    } else {
      ShownOne(p);
    }
  }

  lemma ShownOne(p: Page)
    ensures Shown([p]) == p.done
  {
    assert Shown([]) == [];
  }

  /** Following the cursors over an unchanged board shows the sorted Done list from its beginning, each task
      once and in order, and comes to its end exactly if no page that another one follows ends in a task
      without an identifier; then it has shown the whole list in `max(1, ceil(n / limit))` pages, of which
      only the last says there is no more. */
  lemma WalkShowsDone(tasks: seq<Task>, limit: nat)
    requires DistinctIds(tasks) && 1 <= limit
    ensures var done := Sort(Select(tasks, true));
            && Ranked(done)
            && var pages := Walk(done, limit, None);
               && |pages| > 0 && Shown(pages) <= done
               && (forall k | 0 <= k < |pages| - 1 :: pages[k].hasMore)
               && (!pages[|pages| - 1].hasMore <==> CutsHaveIds(done, limit))
               && (CutsHaveIds(done, limit) ==>
                     && Shown(pages) == done
                     && |done| <= |pages| * limit && (|pages| > 1 ==> (|pages| - 1) * limit < |done|))
  {
    hide Walk, Shown, Ranked, CutsHaveIds;
    var done := Select(tasks, true);
    SelectDistinct(tasks, true);
    SortRanks(done);
    WalkShowsRest(Sort(done), limit, None);
    RestAll(Sort(done), None);
    PagesAreFewest(|done|, limit);
  }

  lemma {:induction false} SelectDistinct(xs: seq<Task>, done: bool)
    requires DistinctIds(xs)
    ensures DistinctIds(Select(xs, done)) && forall x :: x in Select(xs, done) <==> x in xs && x.status.Done? == done
  {
    if xs != [] {
      assert xs == [xs[0]] + xs[1..];
      assert forall k | 0 <= k < |xs[1..]| :: xs[1..][k] == xs[k + 1];
      SelectDistinct(xs[1..], done);
      var r := Select(xs[1..], done);
      assert forall j | 0 <= j < |r| :: r[j] in xs[1..];
    }
  }

  // ------------------------------------------------------------------ a walk over a changing board

  /** The Done list a call sees. */
  function DoneOf(tasks: seq<Task>): seq<Task> { Sort(Select(tasks, true)) }

  function CursorAt(pages: seq<Page>, k: nat): Option<Key>
    requires k <= |pages|
  {
    if k > 0 && pages[k - 1].next.After? then Some(pages[k - 1].next.key) else None
  }

  /** One call per board, each with the cursor the call before returned, which could be decoded. */
  ghost predicate Calls(boards: seq<seq<Task>>, limit: nat, pages: seq<Page>) {
    && |boards| == |pages| > 0 && limit > 0
    && (forall k | 0 <= k < |boards| :: DistinctIds(boards[k]))
    && (forall k {:trigger pages[k]} | 0 <= k < |pages| ::
        pages[k] == Slice(DoneOf(boards[k]), limit, CursorAt(pages, k)))
    && (forall k {:trigger pages[k]} | 0 <= k < |pages| - 1 :: pages[k].next.After?)
  }

  /** What one page settles about a Done task that follows its cursor: it is shown, or it follows the
      next cursor as well. */
  lemma ShownOrAfter(tasks: seq<Task>, limit: nat, cursor: Option<Key>, t: Task)
    requires DistinctIds(tasks) && limit > 0
    ensures var p := Slice(DoneOf(tasks), limit, cursor);
            && (p.next.After? ==> p.hasMore)
            && (t in p.done ==> t in tasks && t.status.Done? && Follows(t, cursor))
            && (t in p.done && p.next.After? ==> !Less(p.next.key, t.Rank()))
            && (t in tasks && t.status.Done? && Follows(t, cursor) && t !in p.done ==> p.hasMore)
            && (t in tasks && t.status.Done? && Follows(t, cursor) && t !in p.done && p.next.After? ==>
                  Less(p.next.key, t.Rank()))
            && (p.next.After? && cursor.Some? ==> Less(cursor.value, p.next.key))
            && DistinctIds(p.done)
  {
    hide Slice, Rest, Less, Sort, Select;
    var done, p := DoneOf(tasks), Slice(DoneOf(tasks), limit, cursor);
    SelectDistinct(tasks, true);
    SortRanks(Select(tasks, true));
    SliceIsFirstAfter(done, limit, cursor);
    InRest(done, cursor, t);
    RestRanked(done, cursor);
    var rest := Rest(done, cursor);
    var cut := Min(limit, |rest|);
    assert rest == rest[..cut] + rest[cut..];
    forall i, j | 0 <= i < j < |p.done| ensures p.done[i].id != p.done[j].id {
      assert p.done[i] == rest[i] && p.done[j] == rest[j];
    }
    if p.hasMore {
      InRest(done, cursor, rest[limit - 1]);
      LastShown(rest, limit, t);
    }
  }

  lemma RestRanked(xs: seq<Task>, cursor: Option<Key>)
    requires Ranked(xs) && DistinctIds(xs)
    ensures Ranked(Rest(xs, cursor)) && DistinctIds(Rest(xs, cursor))
  {
    hide Rest;
    RestIsSuffix(xs, cursor);
  }

  lemma LastShown(rest: seq<Task>, limit: nat, t: Task)
    requires Ranked(rest) && 0 < limit < |rest|
    ensures t in rest[..limit] ==> !Less(rest[limit - 1].Rank(), t.Rank())
    ensures t in rest[limit..] ==> Less(rest[limit - 1].Rank(), t.Rank())
  {
    hide Less;
    if i :| 0 <= i < limit && rest[i] == t { LessIsTotal(rest[i].Rank(), rest[limit - 1].Rank()); }
  }

  lemma NextRises(boards: seq<seq<Task>>, limit: nat, pages: seq<Page>, k: nat)
    requires Calls(boards, limit, pages) && k < |pages| - 1
    ensures pages[k].next.After? && CursorAt(pages, k + 1) == Some(pages[k].next.key)
    ensures CursorAt(pages, k).Some? ==> Less(CursorAt(pages, k).value, pages[k].next.key)
  {
    hide Slice, Less, DoneOf;
    assert pages[k] == Slice(DoneOf(boards[k]), limit, CursorAt(pages, k));
    ShownOrAfter(boards[k], limit, CursorAt(pages, k), Task("", 0, 0, Done));
  }

  /** Keys only go up from page to page, whatever happens to the board in between: nothing with the same
      key is ever shown twice. */
  lemma {:induction false} CursorsRise(boards: seq<seq<Task>>, limit: nat, pages: seq<Page>, j: nat, k: nat)
    requires Calls(boards, limit, pages) && j < k < |pages|
    ensures pages[j].next.After? && CursorAt(pages, k).Some?
    ensures pages[j].next.key == CursorAt(pages, k).value || Less(pages[j].next.key, CursorAt(pages, k).value)
  {
    hide Calls, Less, CursorAt;
    NextRises(boards, limit, pages, k - 1);
    if j < k - 1 {
      NextRises(boards, limit, pages, j);
      CursorsRise(boards, limit, pages, j, k - 1);
      if pages[j].next.key != CursorAt(pages, k - 1).value {
        LessTrans(pages[j].next.key, CursorAt(pages, k - 1).value, pages[k - 1].next.key);
      }
    }
  }

  lemma NeverTwice(boards: seq<seq<Task>>, limit: nat, pages: seq<Page>, j: nat, k: nat, t: Task, u: Task)
    requires Calls(boards, limit, pages) && j < k < |pages| && t in pages[j].done && u in pages[k].done
    ensures Less(t.Rank(), u.Rank())
  {
    CursorsRise(boards, limit, pages, j, k);
    ShownOrAfter(boards[j], limit, CursorAt(pages, j), t);
    ShownOrAfter(boards[k], limit, CursorAt(pages, k), u);
    var a, c := pages[j].next.key, CursorAt(pages, k).value;
    LessIsTotal(t.Rank(), a);
    if a != c { LessTrans(a, c, u.Rank()); }
    if t.Rank() != a { LessTrans(t.Rank(), a, u.Rank()); }
  }

  lemma {:induction false} NotYetShown(boards: seq<seq<Task>>, limit: nat, pages: seq<Page>, k: nat, t: Task)
    requires Calls(boards, limit, pages) && k < |pages| && t.status.Done? && forall i | 0 <= i <= k :: t in boards[i]
    requires forall i | 0 <= i < k :: t !in pages[i].done
    ensures Follows(t, CursorAt(pages, k))
  {
    if k > 0 {
      NotYetShown(boards, limit, pages, k - 1, t);
      assert t in boards[k - 1] && pages[k - 1] == Slice(DoneOf(boards[k - 1]), limit, CursorAt(pages, k - 1));
      ShownOrAfter(boards[k - 1], limit, CursorAt(pages, k - 1), t);
    }
  }

  /** A Done task that stays as it is through all the calls of a walk that came to its end is shown on
      exactly one page, once, whatever other tasks were added, changed or deleted in between, the one
      named by a cursor included. */
  lemma UnchangedShownOnce(boards: seq<seq<Task>>, limit: nat, pages: seq<Page>, t: Task) returns (k: nat)
    requires Calls(boards, limit, pages) && !pages[|pages| - 1].hasMore
    requires t.status.Done? && forall i | 0 <= i < |boards| :: t in boards[i]
    ensures k < |pages| && t in pages[k].done
    ensures forall j | 0 <= j < |pages| && t in pages[j].done :: j == k
    ensures forall a, b | 0 <= a < |pages[k].done| && 0 <= b < |pages[k].done|
                          && pages[k].done[a] == t == pages[k].done[b] :: a == b
  {
    var last := |pages| - 1;
    if forall i | 0 <= i < |pages| :: t !in pages[i].done {
      NotYetShown(boards, limit, pages, last, t);
      assert pages[last] == Slice(DoneOf(boards[last]), limit, CursorAt(pages, last));
      ShownOrAfter(boards[last], limit, CursorAt(pages, last), t);
    }
    k :| 0 <= k < |pages| && t in pages[k].done;
    LessIsTotal(t.Rank(), t.Rank());
    forall j: nat | j < |pages| && t in pages[j].done ensures j == k {
      if j < k { NeverTwice(boards, limit, pages, j, k, t, t); }
      if k < j { NeverTwice(boards, limit, pages, k, j, t, t); }
    }
    assert pages[k] == Slice(DoneOf(boards[k]), limit, CursorAt(pages, k));
    ShownOrAfter(boards[k], limit, CursorAt(pages, k), t);
  }

  // ------------------------------------------------------------------ the functions of the file

  function KeyOf(cursor: Cursor): Option<Key> { if cursor.After? then Some(cursor.key) else None }

  function CountOf(tasks: seq<Task>, status: Status): nat {
    if tasks == [] then 0
    else CountOf(tasks[..|tasks| - 1], status) + (if tasks[|tasks| - 1].status == status then 1 else 0)
  }

  /** `Counter(task.status.value for task in tasks)` */
  function Counts(tasks: seq<Task>): map<Status, nat> {
    if tasks == [] then map[]
    else
      var counts, status := Counts(tasks[..|tasks| - 1]), tasks[|tasks| - 1].status;
      counts[status := (if status in counts then counts[status] else 0) + 1]
  }

  lemma {:induction false} CountsThose(tasks: seq<Task>, status: Status)
    ensures status in Counts(tasks) <==> exists t :: t in tasks && t.status == status
    ensures status in Counts(tasks) <==> CountOf(tasks, status) > 0
    ensures status in Counts(tasks) ==> Counts(tasks)[status] == CountOf(tasks, status)
  {
    if tasks != [] {
      var init, last := tasks[..|tasks| - 1], tasks[|tasks| - 1];
      assert tasks == init + [last];
      CountsThose(init, status);
      if t :| t in tasks && t.status == status { assert t == last || t in init; }
      if t :| t in init && t.status == status { assert t in tasks; }
      assert last in tasks;
    }
  }

  lemma {:induction false} SelectMore(tasks: seq<Task>, t: Task)
    ensures |Select(tasks + [t], true)| == |Select(tasks, true)| + (if t.status.Done? then 1 else 0)
  {
    if tasks == [] {
      assert tasks + [t] == [t] && Select([t][1..], true) == [];
    } else {
      assert (tasks + [t])[1..] == tasks[1..] + [t];
      SelectMore(tasks[1..], t);
    }
  }

  lemma {:induction false} CountsDone(tasks: seq<Task>)
    ensures CountOf(tasks, Done) == |Select(tasks, true)|
  {
    if tasks != [] {
      CountsDone(tasks[..|tasks| - 1]);
      SelectMore(tasks[..|tasks| - 1], tasks[|tasks| - 1]);
      assert tasks == tasks[..|tasks| - 1] + [tasks[|tasks| - 1]];
    }
  }

  /** The counts of a page name exactly the statuses on the board, and agree with its total. */
  lemma CountsAgree(tasks: seq<Task>, limit: int, cursor: Cursor, status: Status)
    requires 1 <= limit <= MAX_LIMIT && (cursor.NoCursor? || cursor.After?)
    ensures var r := Paginate(tasks, Some(limit), cursor);
            && r.Board?
            && (status in r.counts <==> exists t :: t in tasks && t.status == status)
            && (status in r.counts ==> r.counts[status] == CountOf(tasks, status) > 0)
            && r.total == (if Done in r.counts then r.counts[Done] else 0)
  {
    hide Counts, CountOf, Sort, Select, Slice, Sorted;
    CountsThose(tasks, status);
    CountsThose(tasks, Done);
    CountsDone(tasks);
    SortSorts(Select(tasks, true));
    assert |multiset(DoneOf(tasks))| == |multiset(Select(tasks, true))|;
  }

  method CountStatuses(tasks: seq<Task>) returns (counts: map<Status, nat>)
    ensures counts == Counts(tasks)
  {
    counts := map[];
    for k := 0 to |tasks|
      invariant counts == Counts(tasks[..k])
    {
      assert tasks[..k + 1][..k] == tasks[..k];
      var status := tasks[k].status;
      counts := counts[status := (if status in counts then counts[status] else 0) + 1];
    }
    assert tasks[..|tasks|] == tasks;
  }

  function Paginate(tasks: seq<Task>, limit: Option<int>, cursor: Cursor): Reply {
    if limit.None? then Whole(tasks)
    else if limit.value < 1 || limit.value > MAX_LIMIT then Rejected("tasks_limit must be between 1 and 100")
    else if cursor.Blank? then Rejected("tasks_cursor must not be empty")
    else if cursor.Malformed? then Rejected("Invalid tasks_cursor")
    else
      var p := Slice(DoneOf(tasks), limit.value, KeyOf(cursor));
      Board((if cursor.After? then [] else Sort(Select(tasks, false))) + p.done, |DoneOf(tasks)|, p.hasMore, p.next,
        Counts(tasks))
  }

  /** Only the first page has tasks that are not Done: all of them, sorted, before its Done tasks. */
  lemma OthersOnFirstPage(tasks: seq<Task>, limit: int, cursor: Cursor, t: Task)
    requires DistinctIds(tasks) && 1 <= limit <= MAX_LIMIT && (cursor.NoCursor? || cursor.After?) && !t.status.Done?
    ensures var r := Paginate(tasks, Some(limit), cursor);
            r.Board? && (t in r.tasks <==> cursor.NoCursor? && t in tasks)
  {
    SelectDistinct(tasks, true);
    SelectDistinct(tasks, false);
    SortDistinct(Select(tasks, true));
    SortDistinct(Select(tasks, false));
    var p := Slice(DoneOf(tasks), limit, KeyOf(cursor));
    assert forall x | x in p.done :: x in DoneOf(tasks);
  }

  method SplitDone(tasks: seq<Task>) returns (nonDone: seq<Task>, done: seq<Task>)
    ensures nonDone == Select(tasks, false) && done == Select(tasks, true)
  {
    nonDone, done := [], [];
    for k := 0 to |tasks|
      invariant nonDone + Select(tasks[k..], false) == Select(tasks, false)
      invariant done + Select(tasks[k..], true) == Select(tasks, true)
    {
      assert tasks[k..][1..] == tasks[k + 1..];
      if tasks[k].status.Done? { done := done + [tasks[k]]; } else { nonDone := nonDone + [tasks[k]]; }
    }
  }

  method PaginateDoneSlice(sortedDone: seq<Task>, limit: nat, cursor: Option<Key>)
                           returns (page: seq<Task>, hasMore: bool, next: Cursor)
    requires limit > 0
    ensures Page(page, hasMore, next) == Slice(sortedDone, limit, cursor)
  {
    var total, start := |sortedDone|, 0;
    if cursor.Some? {
      while start < total && !Less(cursor.value, sortedDone[start].Rank())
        invariant start <= total && forall j | 0 <= j < start :: !Less(cursor.value, sortedDone[j].Rank())
      {
        start := start + 1;
      }
      StartIs(sortedDone, cursor.value, start);
    }
    page := sortedDone[start..if start + limit < total then start + limit else total];
    hasMore := start + limit < total;
    next := NoCursor;
    if hasMore && page != [] {
      next := Encode(page[|page| - 1].Rank());
    }
  }

  lemma StartIs(xs: seq<Task>, key: Key, start: nat)
    requires start <= |xs| && (forall j | 0 <= j < start :: !Less(key, xs[j].Rank()))
             && (start < |xs| ==> Less(key, xs[start].Rank()))
    ensures StartIndex(xs, key) == start
  {
  }

  method PaginateBoardTasks(tasks: seq<Task>, limit: Option<int>, cursor: Cursor) returns (r: Reply)
    ensures r == Paginate(tasks, limit, cursor)
  {
    if limit.None? { return Whole(tasks); }
    if limit.value < 1 || limit.value > MAX_LIMIT { return Rejected("tasks_limit must be between 1 and 100"); }
    if cursor.Blank? { return Rejected("tasks_cursor must not be empty"); }
    var counts := CountStatuses(tasks);
    var nonDone, done := SplitDone(tasks);
    var sortedDone := Sort(done);
    if cursor.Malformed? { return Rejected("Invalid tasks_cursor"); }
    var page, hasMore, next := PaginateDoneSlice(sortedDone, limit.value, KeyOf(cursor));
    var shown := if cursor.After? then page else Sort(nonDone) + page;
    r := Board(shown, |sortedDone|, hasMore, next, counts);
  }
}
