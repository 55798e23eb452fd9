/** What a client of `paginate_board_tasks` sees: walks over its replies, on boards that stay as they are and on
    boards that change. */
module BoardWalks {
  import opened Options
  import opened BoardPagination

  // ------------------------------------------------------------------ the order, in plain words

  /** The strings agree up to a place where the first ends, or has the smaller character. */
  ghost predicate AtMost(a: string, b: string) {
    exists n :: 0 <= n <= |a| && n <= |b| && a[..n] == b[..n] && (n == |a| || (n < |b| && a[n] < b[n]))
  }

  lemma {:induction false} EarlierIsAtMost(a: string, b: string)
    requires Earlier(a, b) || a == b
    ensures AtMost(a, b)
  {
    assert a[..0] == b[..0];
    if a != [] && a[0] == b[0] {
      assert a == [a[0]] + a[1..] && b == [b[0]] + b[1..];
      EarlierIsAtMost(a[1..], b[1..]);
      var n :| 0 <= n <= |a[1..]| && n <= |b[1..]| && a[1..][..n] == b[1..][..n]
               && (n == |a[1..]| || (n < |b[1..]| && a[1..][n] < b[1..][n]));
      assert a[..n + 1] == [a[0]] + a[1..][..n] && b[..n + 1] == [b[0]] + b[1..][..n];
    }
  }

  lemma {:induction false} AtMostIsEarlier(a: string, b: string)
    requires AtMost(a, b)
    ensures Earlier(a, b) || a == b
  {
    var n :| 0 <= n <= |a| && n <= |b| && a[..n] == b[..n] && (n == |a| || (n < |b| && a[n] < b[n]));
    if n > 0 {
      assert a == [a[0]] + a[1..] && b == [b[0]] + b[1..] && a[0] == a[..n][0] == b[..n][0] == b[0];
      assert a[1..][..n - 1] == a[..n][1..] && b[1..][..n - 1] == b[..n][1..];
      AtMostIsEarlier(a[1..], b[1..]);
    }
  }

  lemma EarlierMeans(a: string, b: string)
    ensures Earlier(a, b) || a == b <==> AtMost(a, b)
  {
    hide AtMost, Earlier;
    if AtMost(a, b) { AtMostIsEarlier(a, b); }
    if Earlier(a, b) || a == b { EarlierIsAtMost(a, b); }
  }

  /** A sorted list has the tasks that were changed last first, of those changed at one time the oldest first, and of
      those made at one time too the lowest identifier first; and it is the same tasks. */
  lemma SortMeans(tasks: seq<Task>, i: nat, j: nat)
    requires i < j < |Sort(tasks)|
    ensures multiset(Sort(tasks)) == multiset(tasks)
    ensures var a, b := Sort(tasks)[i], Sort(tasks)[j];
            && a.updated >= b.updated
            && (a.updated == b.updated ==> a.created <= b.created)
            && (a.updated == b.updated && a.created == b.created ==> AtMost(a.id, b.id))
  {
    hide Sort, AtMost;
    SortSorts(tasks);
    var a, b := Sort(tasks)[i], Sort(tasks)[j];
    LessIsTotal(a.Rank(), b.Rank());
    EarlierMeans(a.id, b.id);
  }

  // ------------------------------------------------------------------ replies

  lemma {:induction false} SelectOf(xs: seq<Task>, ys: seq<Task>, done: bool)
    requires (forall x | x in xs :: x.status.Done? != done) && forall y | y in ys :: y.status.Done? == done
    ensures Select(xs + ys, done) == ys
  {
    if xs != [] {
      assert (xs + ys)[1..] == xs[1..] + ys && xs[0] in xs;
      SelectOf(xs[1..], ys, done);
    } else {
      assert xs + ys == ys;
      if ys != [] {
        assert ys[0] in ys && ys == [ys[0]] + ys[1..] && [] + ys[1..] == ys[1..];
        SelectOf([], ys[1..], done);
      }
    }
  }

  lemma {:induction false} SelectIs(xs: seq<Task>, done: bool)
    ensures forall x :: x in Select(xs, done) <==> x in xs && x.status.Done? == done
  {
    if xs != [] {
      assert xs == [xs[0]] + xs[1..];
      SelectIs(xs[1..], done);
    }
  }

  lemma SortSame(xs: seq<Task>)
    ensures forall x :: x in Sort(xs) <==> x in xs
  {
    SortSorts(xs);
    assert forall x :: x in Sort(xs) <==> x in multiset(Sort(xs));
    assert forall x :: x in xs <==> x in multiset(xs);
  }

  /** The tasks that a first page shows before its Done ones. */
  function Others(tasks: seq<Task>): seq<Task> { Sort(Select(tasks, false)) }

  /** The Done part of a reply. */
  function PageOf(r: Reply): Page
    requires r.Board?
  {
    Page(Select(r.tasks, true), r.hasMore, r.next)
  }

  /** A reply to a cursor that can be decoded shows the slice that follows it, and before it, if it is the first, all
      the tasks that are not Done. */
  lemma ReplyShows(tasks: seq<Task>, limit: int, cursor: Cursor)
    requires 1 <= limit <= 100 && (cursor.NoCursor? || cursor.After?)
    ensures var r := Paginate(tasks, Some(limit), cursor);
            && r.Board? && PageOf(r) == Slice(DoneOf(tasks), limit, KeyOf(cursor))
            && r.tasks == (if cursor.After? then [] else Others(tasks)) + PageOf(r).done
            && r.total == |DoneOf(tasks)|
  {
    hide Sort, Counts, Select;
    var p := Slice(DoneOf(tasks), limit, KeyOf(cursor));
    SelectIs(tasks, true);
    SelectIs(tasks, false);
    SortSame(Select(tasks, true));
    SortSame(Select(tasks, false));
    assert forall y | y in p.done :: y in DoneOf(tasks);
    SelectOf(if cursor.After? then [] else Others(tasks), p.done, true);
  }

  /** Without a limit there is no pagination; a limit that is out of bounds, a blank cursor and one that cannot be
      decoded are refused, in this order, and nothing else is. */
  lemma RefusedExactly(tasks: seq<Task>, limit: Option<int>, cursor: Cursor)
    ensures var r := Paginate(tasks, limit, cursor);
            && (limit.None? ==> r == Whole(tasks))
            && (r.Rejected? <==>
                  limit.Some? && (limit.value < 1 || limit.value > 100 || cursor.Blank? || cursor.Malformed?))
            && (r.Rejected? ==> r.reason == (if limit.value < 1 || limit.value > 100
                                             then "tasks_limit must be between 1 and 100"
                                             else if cursor.Blank? then "tasks_cursor must not be empty"
                                             else "Invalid tasks_cursor"))
  {
  }

  // ------------------------------------------------------------------ calls

  /** The call after `before`, on the board as it is by then. */
  ghost predicate NextCall(board: seq<Task>, limit: int, before: Reply, r: Reply) {
    before.Board? && before.next.After? && r == Paginate(board, Some(limit), before.next)
  }

  /** One call per board, the first without a cursor and each other with the cursor of the reply before it, which
      could be decoded. */
  ghost predicate BoardCalls(boards: seq<seq<Task>>, limit: int, rs: seq<Reply>) {
    && |boards| == |rs| > 0 && 1 <= limit <= 100
    && (forall k | 0 <= k < |boards| :: DistinctIds(boards[k]))
    && rs[0] == Paginate(boards[0], Some(limit), NoCursor)
    && (forall k {:trigger rs[k]} | 0 < k < |rs| :: NextCall(boards[k], limit, rs[k - 1], rs[k]))
  }

  lemma CallShows(boards: seq<seq<Task>>, limit: int, rs: seq<Reply>, k: nat)
    requires BoardCalls(boards, limit, rs) && k < |rs|
    ensures rs[k].Board? && rs[k].tasks == (if k == 0 then Others(boards[0]) else []) + PageOf(rs[k]).done
    ensures PageOf(rs[k]) == Slice(DoneOf(boards[k]), limit,
                                   if k == 0 then None else Some(rs[k - 1].next.key))
    ensures k > 0 ==> rs[k - 1].Board? && rs[k - 1].next.After?
    ensures forall t :: t in PageOf(rs[k]).done <==> t in rs[k].tasks && t.status.Done?
  {
    hide Paginate, Slice, Sort, Select;
    ReplyShows(boards[k], limit, if k == 0 then NoCursor else rs[k - 1].next);
    SelectIs(rs[k].tasks, true);
  }

  function PagesOf(rs: seq<Reply>): seq<Page>
    requires forall r | r in rs :: r.Board?
  {
    seq(|rs|, k requires 0 <= k < |rs| => PageOf(rs[k]))
  }

  /** The Done parts of the replies are the pages of such calls on the Done tasks alone. */
  lemma CallsOfReplies(boards: seq<seq<Task>>, limit: int, rs: seq<Reply>)
    requires BoardCalls(boards, limit, rs)
    ensures forall r | r in rs :: r.Board?
    ensures Calls(boards, limit, PagesOf(rs))
  {
    hide Slice, Select, DoneOf, BoardCalls, Paginate;
    CallsAreCalls(boards, limit, rs);
    forall r | r in rs ensures r.Board? {
      var k :| 0 <= k < |rs| && rs[k] == r;
      CallShows(boards, limit, rs, k);
    }
    var pages := PagesOf(rs);
    forall k | 0 <= k < |pages|
      ensures pages[k] == Slice(DoneOf(boards[k]), limit, CursorAt(pages, k))
      ensures k < |pages| - 1 ==> pages[k].next.After?
    {
      CallShows(boards, limit, rs, k);
      if k < |pages| - 1 { CallShows(boards, limit, rs, k + 1); }
    }
  }

  lemma CallsAreCalls(boards: seq<seq<Task>>, limit: int, rs: seq<Reply>)
    requires BoardCalls(boards, limit, rs)
    ensures |boards| == |rs| > 0 && 1 <= limit <= 100 && forall k | 0 <= k < |boards| :: DistinctIds(boards[k])
  {
  }

  // ------------------------------------------------------------------ boards that change

  /** Over replies to any boards: keys of Done tasks strictly rise from reply to reply, so that none is shown twice,
      and tasks that are not Done are in the first reply only, just those of the first board. */
  lemma RepliesNeverRepeat(boards: seq<seq<Task>>, limit: int, rs: seq<Reply>, j: nat, k: nat, t: Task, u: Task)
    requires BoardCalls(boards, limit, rs) && j < k < |rs| && rs[j].Board? && rs[k].Board?
    requires t in rs[j].tasks && u in rs[k].tasks
    ensures u.status.Done? && (t.status.Done? ==> Less(t.Rank(), u.Rank()))
    ensures !t.status.Done? ==> j == 0 && t in boards[0]
  {
    hide Slice, Select, Paginate, Less, DoneOf, Calls;
    CallShows(boards, limit, rs, j);
    CallShows(boards, limit, rs, k);
    CallsOfReplies(boards, limit, rs);
    SelectIs(boards[0], false);
    SortSame(Select(boards[0], false));
    if t.status.Done? { NeverTwice(boards, limit, PagesOf(rs), j, k, t, u); }
  }

  /** A Done task that stays as it is through all calls of a walk that came to its end is in exactly one reply, once;
      a task that is not Done and is on the first board is in the first reply, once, and in no other. */
  lemma UnchangedInOneReply(boards: seq<seq<Task>>, limit: int, rs: seq<Reply>, t: Task) returns (k: nat)
    requires BoardCalls(boards, limit, rs) && rs[|rs| - 1].Board? && !rs[|rs| - 1].hasMore
    requires t in boards[0] && (t.status.Done? ==> forall i | 0 <= i < |boards| :: t in boards[i])
    ensures k < |rs| && rs[k].Board? && t in rs[k].tasks && (!t.status.Done? ==> k == 0)
    ensures forall j | 0 <= j < |rs| && rs[j].Board? && t in rs[j].tasks :: j == k
    ensures forall a, b | 0 <= a < |rs[k].tasks| && 0 <= b < |rs[k].tasks| && rs[k].tasks[a] == t == rs[k].tasks[b] ::
              a == b
  {
    hide Slice, Select, Paginate, Less, DoneOf, Calls, BoardCalls;
    CallsOfReplies(boards, limit, rs);
    CallsAreCalls(boards, limit, rs);
    if t.status.Done? {
      k := UnchangedShownOnce(boards, limit, PagesOf(rs), t);
    } else {
      k := 0;
      InOthers(boards[0], t);
    }
    CallShows(boards, limit, rs, k);
    forall j: nat | j < |rs| && rs[j].Board? && t in rs[j].tasks ensures j == k {
      CallShows(boards, limit, rs, j);
      assert PagesOf(rs)[j] == PageOf(rs[j]);
    }
    OnceInReply(boards, limit, rs, k, t);
  }

  lemma InOthers(tasks: seq<Task>, t: Task)
    requires t in tasks && !t.status.Done?
    ensures t in Others(tasks)
  {
    SelectIs(tasks, false);
    SortSame(Select(tasks, false));
  }

  /** No task is twice in one reply. */
  lemma OnceInReply(boards: seq<seq<Task>>, limit: int, rs: seq<Reply>, k: nat, t: Task)
    requires BoardCalls(boards, limit, rs) && k < |rs| && rs[k].Board?
    ensures forall a, b | 0 <= a < |rs[k].tasks| && 0 <= b < |rs[k].tasks| && rs[k].tasks[a] == t == rs[k].tasks[b] ::
              a == b
  {
    hide Slice, Select, Paginate, Less, BoardCalls;
    CallsAreCalls(boards, limit, rs);
    CallShows(boards, limit, rs, k);
    SelectDistinct(boards[k], true);
    SelectDistinct(boards[0], false);
    SortDistinct(Select(boards[k], true));
    SortDistinct(Select(boards[0], false));
    var before, done := if k == 0 then Others(boards[0]) else [], PageOf(rs[k]).done;
    SliceDistinct(DoneOf(boards[k]), limit, if k == 0 then None else Some(rs[k - 1].next.key));
    SelectIs(boards[0], false);
    SortSame(Select(boards[0], false));
    OnceInBoth(before, done, t);
  }

  lemma OnceInBoth(xs: seq<Task>, ys: seq<Task>, t: Task)
    requires DistinctIds(xs) && DistinctIds(ys)
    requires (forall x | x in xs :: !x.status.Done?) && forall y | y in ys :: y.status.Done?
    ensures var zs := xs + ys;
            forall a, b | 0 <= a < |zs| && 0 <= b < |zs| && zs[a] == t == zs[b] :: a == b
  {
    var zs := xs + ys;
    forall a, b | 0 <= a < |zs| && 0 <= b < |zs| && zs[a] == t == zs[b] ensures a == b {
      if t.status.Done? {
        assert a >= |xs| && b >= |xs|;
      } else {
        assert a < |xs| && b < |xs|;
      }
    }
  }

  lemma SliceDistinct(xs: seq<Task>, limit: nat, cursor: Option<Key>)
    requires DistinctIds(xs)
    ensures DistinctIds(Slice(xs, limit, cursor).done)
  {
  }

  // ------------------------------------------------------------------ a board that stays as it is

  /** A whole walk over one board, up to a reply without a cursor that can be followed. */
  ghost predicate Followed(tasks: seq<Task>, limit: int, rs: seq<Reply>) {
    && BoardCalls(seq(|rs|, _ => tasks), limit, rs)
    && rs[|rs| - 1].Board? && !rs[|rs| - 1].next.After?
  }

  /** All the tasks of all the replies, in order. */
  function AllTasks(rs: seq<Reply>): seq<Task>
    requires forall r | r in rs :: r.Board?
  {
    if rs == [] then [] else AllTasks(rs[..|rs| - 1]) + rs[|rs| - 1].tasks
  }

  lemma {:induction false} WalkFrom(tasks: seq<Task>, limit: int, rs: seq<Reply>, k: nat)
    requires Followed(tasks, limit, rs) && k < |rs| && Ranked(DoneOf(tasks))
    ensures forall r | r in rs :: r.Board?
    ensures PagesOf(rs)[k..] == Walk(DoneOf(tasks), limit, CursorAt(PagesOf(rs), k))
    decreases |rs| - k
  {
    hide Slice, Select, Paginate, BoardCalls, DoneOf, Ranked;
    var boards := seq(|rs|, _ => tasks);
    CallsOfReplies(boards, limit, rs);
    CallShows(boards, limit, rs, k);
    var pages := PagesOf(rs);
    assert pages[k] == Slice(DoneOf(tasks), limit, CursorAt(pages, k));
    if k + 1 < |rs| {
      CallShows(boards, limit, rs, k + 1);
      WalkFrom(tasks, limit, rs, k + 1);
      assert pages[k..] == [pages[k]] + pages[k + 1..];
    } else {
      assert pages[k..] == [pages[k]];
    }
  }

  lemma {:induction false} ShownOn(pages: seq<Page>, p: Page)
    ensures Shown(pages + [p]) == Shown(pages) + p.done
  {
    if pages == [] {
      assert pages + [p] == [p] && Shown([p][1..]) == [];
    } else {
      var rest := pages[1..];
      ShownOn(rest, p);
      assert (pages + [p])[1..] == rest + [p] && (pages + [p])[0] == pages[0];
      JoinedSo(pages[0].done, Shown(rest), p.done);
    }
  }

  lemma JoinedSo(a: seq<Task>, b: seq<Task>, c: seq<Task>)
    ensures a + (b + c) == (a + b) + c
  {
  }

  lemma {:induction false} AllTasksUpTo(tasks: seq<Task>, limit: int, rs: seq<Reply>, k: nat)
    requires Followed(tasks, limit, rs) && k <= |rs| && forall r | r in rs :: r.Board?
    ensures AllTasks(rs[..k]) == (if k == 0 then [] else Others(tasks)) + Shown(PagesOf(rs)[..k])
  {
    if k == 0 {
      assert AllTasks([]) == [] && Shown([]) == [];
    } else {
      hide Followed, Others, AllTasks, Shown, PagesOf, PageOf;
      AllTasksUpTo(tasks, limit, rs, k - 1);
      ShownAt(tasks, limit, rs, k - 1);
      TasksOneMore(rs, k);
      Joined(AllTasks(rs[..k - 1]), Others(tasks), Shown(PagesOf(rs)[..k - 1]), PageOf(rs[k - 1]).done, k == 1);
    }
  }

  lemma ShownAt(tasks: seq<Task>, limit: int, rs: seq<Reply>, k: nat)
    requires Followed(tasks, limit, rs) && k < |rs|
    ensures rs[k].Board? && rs[k].tasks == (if k == 0 then Others(tasks) else []) + PageOf(rs[k]).done
  {
    hide BoardCalls, PageOf, Others, Select, Slice, Paginate;
    CallShows(seq(|rs|, _ => tasks), limit, rs, k);
  }

  lemma Joined(all: seq<Task>, others: seq<Task>, shown: seq<Task>, done: seq<Task>, first: bool)
    requires all == (if first then [] else others) + shown && (first ==> shown == [])
    ensures all + ((if first then others else []) + done) == others + (shown + done)
  {
  }

  lemma TasksOneMore(rs: seq<Reply>, k: nat)
    requires 0 < k <= |rs| && forall r | r in rs :: r.Board?
    ensures AllTasks(rs[..k]) == AllTasks(rs[..k - 1]) + rs[k - 1].tasks
    ensures Shown(PagesOf(rs)[..k]) == Shown(PagesOf(rs)[..k - 1]) + PageOf(rs[k - 1]).done
    ensures k == 1 ==> Shown(PagesOf(rs)[..0]) == []
  {
    var pages := PagesOf(rs);
    assert rs[..k][..k - 1] == rs[..k - 1];
    ShownOn(pages[..k - 1], PageOf(rs[k - 1]));
    assert pages[..k] == pages[..k - 1] + [PageOf(rs[k - 1])];
  }

  /** A walk over a board that stays as it is shows the tasks that are not Done, sorted, and then the Done ones,
      sorted, from the beginning: all of them, each once, exactly if no reply with another after it ends in an empty
      identifier, and then the last reply and no other says that there is no more. */
  lemma BoardShownWhole(tasks: seq<Task>, limit: int, rs: seq<Reply>)
    requires DistinctIds(tasks) && Followed(tasks, limit, rs)
    ensures forall r | r in rs :: r.Board?
    ensures var last := |rs| - 1;
            && AllTasks(rs) <= Others(tasks) + DoneOf(tasks) && Ranked(Others(tasks)) && Ranked(DoneOf(tasks))
            && (forall k | 0 <= k < last :: rs[k].hasMore)
            && (!rs[last].hasMore <==> CutsHaveIds(DoneOf(tasks), limit))
            && (!rs[last].hasMore ==>
                  && AllTasks(rs) == Others(tasks) + DoneOf(tasks)
                  && multiset(AllTasks(rs)) == multiset(tasks)
                  && |DoneOf(tasks)| <= |rs| * limit && (|rs| > 1 ==> (|rs| - 1) * limit < |DoneOf(tasks)|))
  {
    hide Slice, Select, Paginate, BoardCalls, Walk, Shown, Ranked, CutsHaveIds, AllTasks, Sort;
    FollowedLimit(tasks, limit, rs);
    WalkShowsDone(tasks, limit);
    SelectDistinct(tasks, false);
    SortRanks(Select(tasks, false));
    WalkFrom(tasks, limit, rs, 0);
    AllTasksUpTo(tasks, limit, rs, |rs|);
    var pages := PagesOf(rs);
    assert pages[0..] == pages && rs[..|rs|] == rs && pages[..|rs|] == pages;
    assert forall k | 0 <= k < |rs| :: pages[k].hasMore == rs[k].hasMore;
    SameTasks(tasks);
  }

  lemma FollowedLimit(tasks: seq<Task>, limit: int, rs: seq<Reply>)
    requires Followed(tasks, limit, rs)
    ensures 1 <= limit <= 100 && |rs| > 0
  {
  }

  lemma {:induction false} SelectSplits(xs: seq<Task>)
    ensures multiset(Select(xs, false)) + multiset(Select(xs, true)) == multiset(xs)
  {
    if xs != [] {
      assert xs == [xs[0]] + xs[1..];
      SelectSplits(xs[1..]);
    }
  }

  lemma SameTasks(tasks: seq<Task>)
    ensures multiset(Others(tasks) + DoneOf(tasks)) == multiset(tasks)
  {
    SelectSplits(tasks);
    SortSorts(Select(tasks, false));
    SortSorts(Select(tasks, true));
  }

  lemma OneCallMore(tasks: seq<Task>, limit: int, rs: seq<Reply>)
    requires BoardCalls(seq(|rs|, _ => tasks), limit, rs) && rs[|rs| - 1].Board? && rs[|rs| - 1].next.After?
    ensures var us := rs + [Paginate(tasks, Some(limit), rs[|rs| - 1].next)];
            BoardCalls(seq(|us|, _ => tasks), limit, us)
  {
    hide Paginate;
    var r := Paginate(tasks, Some(limit), rs[|rs| - 1].next);
    var us := rs + [r];
    var boards, more := seq(|rs|, _ => tasks), seq(|rs| + 1, _ => tasks);
    assert boards[0] == tasks && DistinctIds(boards[0]);
    assert us[0] == rs[0];
    forall k | 0 < k < |us| ensures NextCall(more[k], limit, us[k - 1], us[k]) {
      if k < |rs| { assert NextCall(boards[k], limit, rs[k - 1], rs[k]) && us[k] == rs[k]; }
    }
  }

  lemma {:induction false} FollowOn(tasks: seq<Task>, limit: int, rs: seq<Reply>) returns (us: seq<Reply>)
    requires rs != [] && Ranked(DoneOf(tasks)) && BoardCalls(seq(|rs|, _ => tasks), limit, rs) && rs[|rs| - 1].Board?
    ensures Followed(tasks, limit, us)
    decreases if rs[|rs| - 1].next.After? then 1 + |Rest(DoneOf(tasks), Some(rs[|rs| - 1].next.key))| else 0
  {
    hide Paginate, BoardCalls, Ranked, Slice, Rest, DoneOf, Select;
    us := rs;
    var cursor := rs[|rs| - 1].next;
    if cursor.After? {
      OneCallMore(tasks, limit, rs);
      CallsAreCalls(seq(|rs|, _ => tasks), limit, rs);
      ReplyShows(tasks, limit, cursor);
      RestShrinks(DoneOf(tasks), limit, Some(cursor.key));
      us := FollowOn(tasks, limit, rs + [Paginate(tasks, Some(limit), cursor)]);
    }
  }

  /** And there is such a walk on every board. */
  lemma CanFollow(tasks: seq<Task>, limit: int) returns (rs: seq<Reply>)
    requires DistinctIds(tasks) && 1 <= limit <= 100
    ensures Followed(tasks, limit, rs)
  {
    hide Paginate, Ranked, Select, Followed, Sort;
    SelectDistinct(tasks, true);
    SortRanks(Select(tasks, true));
    ReplyShows(tasks, limit, NoCursor);
    rs := FollowOn(tasks, limit, [Paginate(tasks, Some(limit), NoCursor)]);
  }

  lemma RestShrinks(xs: seq<Task>, limit: nat, cursor: Option<Key>)
    requires Ranked(xs) && limit > 0
    ensures |Rest(xs, cursor)| <= |xs|
    ensures var p := Slice(xs, limit, cursor); p.next.After? ==> |Rest(xs, Some(p.next.key))| < |Rest(xs, cursor)|
  {
    RestIsSuffix(xs, cursor);
    if Slice(xs, limit, cursor).next.After? { NextIsFurther(xs, limit, cursor); }
  }
}
