/** The per-tab dispatch queues of backend/claude_hub/api/feishu_bot.py: at most one batch of a tab is
    with the Chat at any time, later messages wait in order, and no queue is ever left without somebody
    to serve it.

    Items and queue objects are numbered in the order they are made; a queue object stays known after it
    has been dropped from the registry, because the coroutine that serves it may still hold it. */
module TabDispatch {
  import opened Options

  const MAX_QUEUES := 256
  const MAX_WAITERS := 8

  /** `started`: its `start` future is done; `claimed`: `dispatch_started`; `finished`: it has an outcome. */
  datatype Item = Item(tab: string, started: bool, claimed: bool, finished: bool, cancelled: bool) {
    predicate Waits() { !claimed && !cancelled }
    predicate AtWork() { claimed && !finished }
  }

  datatype Queue = Queue(tab: string, pending: seq<nat>, active: seq<nat>, processor: Option<nat>)

  /** `claims` is history: the items in the order in which they were claimed. */
  datatype State = State(registry: map<string, nat>, queues: seq<Queue>, items: seq<Item>, claims: seq<nat>)

  const NONE := State(map[], [], [], [])

  // ------------------------------------------------------------------ the operations

  function Live(xs: seq<nat>, items: seq<Item>): seq<nat> {
    if xs == [] then []
    else Live(xs[..|xs| - 1], items) +
         (if xs[|xs| - 1] < |items| && items[xs[|xs| - 1]].cancelled then [] else [xs[|xs| - 1]])
  }

  /** `list.remove`, of an element that may be missing. */
  function Remove(xs: seq<nat>, x: nat): seq<nat> {
    if xs == [] then [] else if xs[0] == x then xs[1..] else [xs[0]] + Remove(xs[1..], x)
  }

  predicate Registered(s: State, h: nat) {
    h < |s.queues| && s.queues[h].tab in s.registry && s.registry[s.queues[h].tab] == h
  }

  /** `_promote_tab_dispatch` */
  function Promote(s: State, h: nat): State
    requires h < |s.queues|
  {
    var q := s.queues[h];
    if q.processor.Some? || q.active != [] then s
    else
      var live := Live(q.pending, s.items);
      if live != [] then
        s.(queues := s.queues[h := q.(pending := live, processor := Some(live[0]))],
           items := if live[0] < |s.items| then s.items[live[0] := s.items[live[0]].(started := true)] else s.items)
      else
        s.(queues := s.queues[h := q.(pending := [])],
           registry := if Registered(s, h) then s.registry - {q.tab} else s.registry)
  }

  function Limit(q: Queue): nat { if q.active != [] then MAX_WAITERS else MAX_WAITERS + 1 }

  function Register(s: State, tab: string): State {
    s.(registry := s.registry[tab := |s.queues|], queues := s.queues + [Queue(tab, [], [], None)])
  }

  function Append(s: State, tab: string): State
    requires tab in s.registry && s.registry[tab] < |s.queues|
  {
    var h := s.registry[tab];
    s.(items := s.items + [Item(tab, false, false, false, false)],
       queues := s.queues[h := s.queues[h].(pending := s.queues[h].pending + [|s.items|])])
  }

  /** `_reserve_tab_dispatch`: the new item, or none when the registry or the queue is full. */
  function Reserve(s: State, tab: string): (State, Option<nat>)
    requires forall t | t in s.registry :: s.registry[t] < |s.queues|
  {
    if tab !in s.registry && |s.registry| >= MAX_QUEUES then (s, None)
    else
      var r := if tab in s.registry then s else Register(s, tab);
      var q := r.queues[r.registry[tab]];
      if |q.pending| >= Limit(q) then (r, None)
      else (Promote(Append(r, tab), r.registry[tab]), Some(|s.items|))
  }

  function Strike(q: Queue, i: nat, claimed: bool): Queue {
    q.(pending := if claimed then q.pending else Remove(q.pending, i),
       active := if claimed || i in q.pending then q.active else Remove(q.active, i),
       processor := if q.processor == Some(i) then None else q.processor)
  }

  /** `_cancel_tab_dispatch`, called by the item's own coroutine, whatever has become of the item. */
  function Cancel(s: State, i: nat): State
    requires i < |s.items| && forall t | t in s.registry :: s.registry[t] < |s.queues|
  {
    var e := s.items[i];
    if e.tab !in s.registry || e.cancelled then s
    else
      var h := s.registry[e.tab];
      Promote(s.(items := s.items[i := e.(cancelled := true)],
        queues := s.queues[h := Strike(s.queues[h], i, e.claimed)]), h)
  }

  function Mark(items: seq<Item>, batch: seq<nat>, finish: bool): seq<Item> {
    seq(|items|, i requires 0 <= i < |items| =>
      if i !in batch then items[i]
      else if finish then items[i].(finished := true)
      else items[i].(claimed := true, started := true))
  }

  /** `_claim_tab_dispatch_batch`, on the first `n` pending items: those that match the leader. */
  function Claim(s: State, h: nat, n: nat): State
    requires h < |s.queues| && n <= |s.queues[h].pending|
  {
    var q := s.queues[h];
    var batch := q.pending[..n];
    s.(queues := s.queues[h := q.(pending := q.pending[n..], active := batch, processor := None)],
       items := Mark(s.items, batch, false), claims := s.claims + batch)
  }

  /** `_finish_tab_dispatch_batch` */
  function Finish(s: State, h: nat): State
    requires h < |s.queues|
  {
    var q := s.queues[h];
    Promote(s.(queues := s.queues[h := q.(active := [])], items := Mark(s.items, q.active, true)), h)
  }

  // ------------------------------------------------------------------ the invariant

  ghost predicate Increasing(xs: seq<nat>) {
    forall k, l | 0 <= k < l < |xs| :: xs[k] < xs[l]
  }

  ghost predicate WaitsIn(s: State, i: nat, tab: string) {
    i < |s.items| && s.items[i].tab == tab && s.items[i].Waits() && !s.items[i].finished
  }

  ghost predicate WorksIn(s: State, i: nat, tab: string) {
    i < |s.items| && s.items[i].tab == tab && s.items[i].AtWork()
  }

  ghost predicate Told(s: State, i: nat) { i < |s.items| && s.items[i].started }

  /** A queue's lists are in order of arrival and hold what they should; its processor is its first
      pending item, has been told to start, and excludes an active batch. */
  ghost predicate Sane(s: State, h: nat) {
    h < |s.queues| ==>
      var q := s.queues[h];
      && Increasing(q.pending) && Increasing(q.active)
      && (forall i | i in q.pending :: WaitsIn(s, i, q.tab))
      && (forall i | i in q.active :: WorksIn(s, i, q.tab))
      && (q.processor.Some? ==>
            q.active == [] && q.pending != [] && q.pending[0] == q.processor.value && Told(s, q.processor.value))
      && |q.pending| <= Limit(q)
      && (!Registered(s, h) ==> q.pending == [] && q.active == [])
  }

  /** A registered queue is being served. */
  ghost predicate Served(s: State, h: nat) {
    Registered(s, h) ==> s.queues[h].processor.Some? || s.queues[h].active != []
  }

  /** An item that still waits or is at work is in the registered queue of its tab. */
  ghost predicate Placed(s: State, i: nat)
    requires Rooted(s)
  {
    i < |s.items| ==>
      var e := s.items[i];
      && (e.finished ==> e.claimed)
      && (e.Waits() ==> e.tab in s.registry && i in s.queues[s.registry[e.tab]].pending)
      && (e.AtWork() ==> e.tab in s.registry && i in s.queues[s.registry[e.tab]].active)
  }

  ghost predicate Rooted(s: State) {
    && |s.registry| <= MAX_QUEUES
    && forall t | t in s.registry :: s.registry[t] < |s.queues| && s.queues[s.registry[t]].tab == t
  }

  /** `c` was claimed, and `i`, of the same tab, was claimed after it or still waits: then it is later. */
  ghost predicate Before(s: State, c: nat, i: nat) {
    c < |s.items| && i < |s.items| && s.items[c].tab == s.items[i].tab ==> c < i
  }

  /** Claims of one tab follow the order of arrival, and nothing that waits arrived before them. */
  ghost predicate Ordered(s: State) {
    && (forall k | 0 <= k < |s.claims| :: s.claims[k] < |s.items| && s.items[s.claims[k]].claimed)
    && (forall k, l {:trigger Before(s, s.claims[k], s.claims[l])} | 0 <= k < l < |s.claims| ::
        Before(s, s.claims[k], s.claims[l]))
    && (forall k, i: nat {:trigger Before(s, s.claims[k], i)} |
          0 <= k < |s.claims| && i < |s.items| && s.items[i].Waits() :: Before(s, s.claims[k], i))
  }

  ghost predicate InvBut(s: State, but: Option<nat>) {
    && Rooted(s) && Ordered(s)
    && (forall h: nat {:trigger Sane(s, h)} :: Sane(s, h))
    && (forall h: nat {:trigger Served(s, h)} | but != Some(h) :: Served(s, h))
    && (forall i: nat {:trigger Placed(s, i)} :: Placed(s, i))
  }

  ghost predicate Inv(s: State) { InvBut(s, None) }

  lemma EmptyInv()
    ensures Inv(NONE)
  {
  }

  lemma {:induction false} NoneCancelled(xs: seq<nat>, items: seq<Item>)
    requires forall i | i in xs :: i < |items| && !items[i].cancelled
    ensures Live(xs, items) == xs
  {
    if xs != [] {
      NoneCancelled(xs[..|xs| - 1], items);
      assert xs == xs[..|xs| - 1] + [xs[|xs| - 1]];
    }
  }

  lemma {:induction false} RemovedMembers(xs: seq<nat>, x: nat)
    ensures |Remove(xs, x)| <= |xs|
    ensures forall y | y != x :: y in Remove(xs, x) <==> y in xs
  {
    if xs != [] {
      assert xs == [xs[0]] + xs[1..];
      if xs[0] != x { RemovedMembers(xs[1..], x); }
    }
  }

  lemma IncreasingRest(xs: seq<nat>)
    requires Increasing(xs) && xs != []
    ensures Increasing(xs[1..]) && forall y | y in xs[1..] :: xs[0] < y
  {
    assert forall k | 0 <= k < |xs[1..]| :: xs[1..][k] == xs[k + 1];
  }

  lemma {:induction false} RemovedInOrder(xs: seq<nat>, x: nat)
    requires Increasing(xs)
    ensures Increasing(Remove(xs, x)) && x !in Remove(xs, x)
    ensures forall y | y in Remove(xs, x) :: y in xs
  {
    hide Increasing;
    if xs != [] {
      IncreasingRest(xs);
      assert xs == [xs[0]] + xs[1..];
      if xs[0] != x {
        RemovedInOrder(xs[1..], x);
        Prepended(xs[0], Remove(xs[1..], x));
      }
    }
  }

  lemma Removed(xs: seq<nat>, x: nat)
    requires Increasing(xs)
    ensures Increasing(Remove(xs, x)) && |Remove(xs, x)| <= |xs|
    ensures forall y :: y in Remove(xs, x) <==> y in xs && y != x
    ensures xs != [] && xs[0] != x ==> Remove(xs, x) != [] && Remove(xs, x)[0] == xs[0]
  {
    hide Increasing;
    RemovedMembers(xs, x);
    RemovedInOrder(xs, x);
  }

  lemma Prepended(x: nat, xs: seq<nat>)
    requires Increasing(xs) && forall y | y in xs :: x < y
    ensures Increasing([x] + xs)
  {
    var r := [x] + xs;
    forall k, l | 0 <= k < l < |r| ensures r[k] < r[l] { assert xs[l - 1] in xs; }
  }

  // ------------------------------------------------------------------ what each operation keeps

  /** The same item, but that it may have been told to start. */
  ghost predicate Alike(e: Item, f: Item) { f == e.(started := f.started) && (e.started ==> f.started) }

  lemma SaneKept(s: State, r: State, h: nat)
    requires Sane(s, h) && h < |s.queues| <= |r.queues| && r.queues[h] == s.queues[h]
    requires Registered(s, h) ==> Registered(r, h)
    requires forall i | i in s.queues[h].pending + s.queues[h].active :: i < |r.items| && Alike(s.items[i], r.items[i])
    ensures Sane(r, h)
  {
    var q := s.queues[h];
    assert forall i | i in q.pending :: i in q.pending + q.active && WaitsIn(s, i, q.tab);
    assert forall i | i in q.active :: i in q.pending + q.active && WorksIn(s, i, q.tab);
  }

  lemma OrderKept(s: State, r: State)
    requires Ordered(s) && r.claims == s.claims && |r.items| == |s.items|
    requires forall i | 0 <= i < |s.items| ::
               r.items[i].tab == s.items[i].tab
               && (s.items[i].claimed ==> r.items[i].claimed) && (r.items[i].Waits() ==> s.items[i].Waits())
    ensures Ordered(r)
  {
    forall k, l | 0 <= k < l < |r.claims| ensures Before(r, r.claims[k], r.claims[l]) {
      assert Before(s, s.claims[k], s.claims[l]);
    }
    forall k, i: nat | 0 <= k < |r.claims| && i < |r.items| && r.items[i].Waits() ensures Before(r, r.claims[k], i) {
      assert Before(s, s.claims[k], i);
    }
  }

  /** With nothing cancelled among the pending, the first of them is told to start, or the queue goes. */
  function Promoted(s: State, h: nat): State
    requires h < |s.queues|
  {
    var q := s.queues[h];
    if q.pending != [] then
      s.(queues := s.queues[h := q.(processor := Some(q.pending[0]))],
         items := if q.pending[0] < |s.items| then s.items[q.pending[0] := s.items[q.pending[0]].(started := true)]
           else s.items)
    else s.(registry := s.registry - {q.tab})
  }

  lemma PromoteShape(s: State, h: nat)
    requires Sane(s, h) && Registered(s, h) && s.queues[h].processor.None? && s.queues[h].active == []
    ensures Promote(s, h) == Promoted(s, h)
  {
    var q := s.queues[h];
    assert forall i | i in q.pending :: WaitsIn(s, i, q.tab);
    NoneCancelled(q.pending, s.items);
    assert q.pending == [] ==> s.queues[h := q.(pending := [])] == s.queues;
  }

  lemma PromotedQueues(s: State, h: nat, g: nat)
    requires InvBut(s, Some(h)) && Registered(s, h) && s.queues[h].processor.None? && s.queues[h].active == []
    ensures Sane(Promoted(s, h), g) && Served(Promoted(s, h), g)
  {
    hide Increasing, Ordered, Placed;
    var q, r := s.queues[h], Promoted(s, h);
    assert Sane(s, h) && Sane(s, g);
    assert g != h ==> Served(s, g);
    if g < |s.queues| {
      OtherItems(s, g);
      if g != h {
        SaneKept(s, r, g);
      } else if q.pending != [] {
        assert WaitsIn(s, q.pending[0], q.tab);
        forall i | i in q.pending ensures WaitsIn(r, i, q.tab) { assert WaitsIn(s, i, q.tab); }
      }
    }
  }

  lemma PromoteRestores(s: State, h: nat)
    requires InvBut(s, Some(h)) && Registered(s, h)
    ensures Inv(Promote(s, h))
  {
    hide Sane, Increasing, Ordered, Promote;
    var q, r := s.queues[h], Promoted(s, h);
    assert Sane(s, h);
    if q.processor.Some? || q.active != [] {
      BusyStays(s, h);
    } else {
      PromoteShape(s, h);
      forall g: nat ensures Sane(r, g) && Served(r, g) { PromotedQueues(s, h, g); }
      forall i: nat ensures Placed(r, i) { assert Placed(s, i); }
      OrderKept(s, r);
    }
  }

  lemma BusyStays(s: State, h: nat)
    requires h < |s.queues| && (s.queues[h].processor.Some? || s.queues[h].active != [])
    ensures Promote(s, h) == s && Served(s, h)
  {
  }

  lemma OtherItems(s: State, h: nat)
    requires Sane(s, h) && h < |s.queues|
    ensures forall i | i in s.queues[h].pending + s.queues[h].active :: i < |s.items|
  {
    var q := s.queues[h];
    forall i | i in q.pending + q.active ensures i < |s.items| {
      assert WaitsIn(s, i, q.tab) || WorksIn(s, i, q.tab);
    }
  }

  lemma RegisterKeeps(s: State, tab: string)
    requires Inv(s) && tab !in s.registry && |s.registry| < MAX_QUEUES
    ensures InvBut(Register(s, tab), Some(|s.queues|))
  {
    hide Ordered;
    var r := Register(s, tab);
    forall h: nat ensures Sane(r, h) && (h != |s.queues| ==> Served(r, h)) {
      assert Sane(s, h) && Served(s, h);
      if h < |s.queues| {
        OtherItems(s, h);
        SaneKept(s, r, h);
      } else if h == |s.queues| {
        assert r.queues[h] == Queue(tab, [], [], None);
      }
    }
    forall i: nat ensures Placed(r, i) { assert Placed(s, i); }
    OrderKept(s, r);
  }

  lemma AppendKeeps(s: State, tab: string, h: nat)
    requires InvBut(s, Some(h)) && tab in s.registry && s.registry[tab] == h && h < |s.queues| && s.queues[h].tab == tab
    requires |s.queues[h].pending| < Limit(s.queues[h])
    ensures InvBut(Append(s, tab), Some(h))
  {
    hide Ordered;
    var r, n := Append(s, tab), |s.items|;
    var q := s.queues[h];
    assert Sane(s, h);
    forall g: nat ensures Sane(r, g) && (g != h ==> Served(r, g)) {
      assert Sane(s, g) && (g != h ==> Served(s, g));
      if g < |s.queues| {
        OtherItems(s, g);
        if g != h {
          SaneKept(s, r, g);
        } else {
          forall i | i in r.queues[h].pending ensures WaitsIn(r, i, tab) { assert i != n ==> WaitsIn(s, i, tab); }
          forall i | i in q.active ensures WorksIn(r, i, tab) { assert WorksIn(s, i, tab); }
          assert forall i | i in q.pending :: WaitsIn(s, i, tab);
          Appended(q.pending, n);
        }
      }
    }
    forall i: nat ensures Placed(r, i) {
      assert Placed(s, i);
      assert r.queues[h].pending[|q.pending|] == n;
    }
    AppendOrder(s, r);
  }

  lemma Appended(xs: seq<nat>, n: nat)
    requires Increasing(xs) && forall i | i in xs :: i < n
    ensures Increasing(xs + [n])
  {
    assert forall k | 0 <= k < |xs| :: xs[k] in xs;
  }

  lemma AppendOrder(s: State, r: State)
    requires Ordered(s) && r.claims == s.claims && |r.items| == |s.items| + 1 && r.items[..|s.items|] == s.items
    ensures Ordered(r)
  {
    assert forall i | 0 <= i < |s.items| :: r.items[i] == r.items[..|s.items|][i];
    forall k, l | 0 <= k < l < |r.claims| ensures Before(r, r.claims[k], r.claims[l]) {
      assert Before(s, s.claims[k], s.claims[l]);
    }
    forall k, i: nat | 0 <= k < |r.claims| && i < |r.items| && r.items[i].Waits() ensures Before(r, r.claims[k], i) {
      assert i < |s.items| ==> Before(s, s.claims[k], i);
    }
  }

  lemma ReserveKeeps(s: State, tab: string)
    requires Inv(s)
    ensures Inv(Reserve(s, tab).0)
  {
    hide Sane, Ordered, Placed, Promote, Append;
    if tab in s.registry || |s.registry| < MAX_QUEUES {
      var r := if tab in s.registry then s else Register(s, tab);
      if tab !in s.registry { RegisterKeeps(s, tab); }
      var h := r.registry[tab];
      if |r.queues[h].pending| < Limit(r.queues[h]) {
        AppendKeeps(r, tab, h);
        AppendRegisters(r, tab);
        PromoteRestores(Append(r, tab), h);
      }
    }
  }

  lemma AppendRegisters(s: State, tab: string)
    requires tab in s.registry && s.registry[tab] < |s.queues| && s.queues[s.registry[tab]].tab == tab
    ensures Registered(Append(s, tab), s.registry[tab])
  {
  }

  // ------------------------------------------------------------------ cancelling

  /** The queue a cancellation looks at may be a later one than the item's own. */
  lemma StruckQueue(s: State, i: nat)
    requires Inv(s) && i < |s.items| && s.items[i].tab in s.registry && !s.items[i].cancelled
    ensures var h := s.registry[s.items[i].tab];
            var q, e := s.queues[h], s.items[i];
            var p := Strike(q, i, e.claimed);
            && p.tab == q.tab && p.active == q.active
            && Increasing(p.pending) && |p.pending| <= |q.pending|
            && (forall j :: j in p.pending <==> j in q.pending && j != i)
            && (p.processor.Some? ==> p.processor == q.processor && p.pending != [] && p.pending[0] == q.pending[0])
  {
    var h := s.registry[s.items[i].tab];
    var q, e := s.queues[h], s.items[i];
    assert Sane(s, h) && Placed(s, i);
    Removed(q.pending, i);
    assert i in q.active ==> WorksIn(s, i, q.tab);
    if e.claimed { assert i in q.pending ==> WaitsIn(s, i, q.tab); }
  }

  function Struck(s: State, i: nat): State
    requires i < |s.items| && s.items[i].tab in s.registry && s.registry[s.items[i].tab] < |s.queues|
  {
    var e := s.items[i];
    var h := s.registry[e.tab];
    s.(items := s.items[i := e.(cancelled := true)], queues := s.queues[h := Strike(s.queues[h], i, e.claimed)])
  }

  lemma StrikeKeeps(s: State, i: nat)
    requires Inv(s) && i < |s.items| && s.items[i].tab in s.registry && !s.items[i].cancelled
    ensures InvBut(Struck(s, i), Some(s.registry[s.items[i].tab]))
            && Registered(Struck(s, i), s.registry[s.items[i].tab])
  {
    hide Ordered, Increasing, Strike;
    var r, h := Struck(s, i), s.registry[s.items[i].tab];
    StruckQueue(s, i);
    assert Sane(s, h);
    forall g: nat ensures Sane(r, g) && (g != h ==> Served(r, g)) {
      assert Sane(s, g) && Served(s, g);
      if g < |s.queues| {
        if g != h {
          StruckOthers(s, i, g);
          SaneKept(s, r, g);
        } else {
          var q := s.queues[h];
          forall j | j in r.queues[h].pending ensures WaitsIn(r, j, q.tab) { assert WaitsIn(s, j, q.tab); }
          forall j | j in q.active ensures WorksIn(r, j, q.tab) { assert WorksIn(s, j, q.tab); }
        }
      }
    }
    forall j: nat ensures Placed(r, j) { assert Placed(s, j); }
    OrderKept(s, r);
  }

  lemma StruckOthers(s: State, i: nat, g: nat)
    requires Inv(s) && i < |s.items| && s.items[i].tab in s.registry && g < |s.queues|
    requires g != s.registry[s.items[i].tab]
    ensures forall j | j in s.queues[g].pending + s.queues[g].active :: j < |s.items| && j != i
  {
    assert Sane(s, g);
    OtherItems(s, g);
    var q := s.queues[g];
    forall j | j in q.pending + q.active ensures j != i {
      assert WaitsIn(s, j, q.tab) || WorksIn(s, j, q.tab);
    }
  }

  lemma CancelKeeps(s: State, i: nat)
    requires Inv(s) && i < |s.items|
    ensures Inv(Cancel(s, i))
  {
    hide Sane, Ordered, Placed, Promote, Strike, Inv;
    InvRooted(s);
    if s.items[i].tab in s.registry && !s.items[i].cancelled {
      StrikeKeeps(s, i);
      PromoteRestores(Struck(s, i), s.registry[s.items[i].tab]);
    }
  }

  lemma InvRooted(s: State)
    requires Inv(s)
    ensures Rooted(s)
  {
  }

  // ------------------------------------------------------------------ claiming and finishing

  lemma Cut(xs: seq<nat>, n: nat)
    requires Increasing(xs) && n <= |xs|
    ensures Increasing(xs[..n]) && Increasing(xs[n..])
    ensures forall x :: x in xs[..n] ==> x in xs && x !in xs[n..]
    ensures forall x :: x in xs[n..] ==> x in xs && forall y | y in xs[..n] :: y < x
    ensures forall x :: x in xs ==> x in xs[..n] || x in xs[n..]
  {
    var a, b := xs[..n], xs[n..];
    assert xs == a + b;
    assert forall k | 0 <= k < |b| :: b[k] == xs[n + k];
  }

  lemma ClaimQueues(s: State, h: nat, n: nat, g: nat)
    requires Inv(s) && h < |s.queues| && s.queues[h].processor.Some? && 0 < n <= |s.queues[h].pending|
    ensures Sane(Claim(s, h, n), g) && Served(Claim(s, h, n), g)
  {
    hide Increasing, Ordered;
    var q, r := s.queues[h], Claim(s, h, n);
    assert Sane(s, h) && Sane(s, g) && Served(s, g);
    Cut(q.pending, n);
    if g < |s.queues| {
      OtherItems(s, g);
      if g == h {
        forall i | i in q.pending[n..] ensures WaitsIn(r, i, q.tab) { assert WaitsIn(s, i, q.tab); }
        forall i | i in q.pending[..n] ensures WorksIn(r, i, q.tab) { assert WaitsIn(s, i, q.tab); }
      } else {
        assert forall i | i in q.pending[..n] :: WaitsIn(s, i, q.tab);
        ElsewhereKept(s, r, h, g, q.pending[..n]);
      }
    }
  }

  /** Marking a batch of one registered queue touches no other queue's items. */
  lemma ElsewhereKept(s: State, r: State, h: nat, g: nat, batch: seq<nat>)
    requires Inv(s) && h < |s.queues| && g < |s.queues| && g != h && Registered(s, h)
    requires r.registry == s.registry && |r.queues| == |s.queues| && r.queues[g] == s.queues[g]
             && |r.items| == |s.items|
    requires forall i | i in batch :: i < |s.items| && s.items[i].tab == s.queues[h].tab
    requires forall i: nat | i < |s.items| && i !in batch :: r.items[i] == s.items[i]
    ensures Sane(r, g) && Served(r, g)
  {
    var q := s.queues[g];
    assert Sane(s, g) && Served(s, g);
    forall i | i in q.pending + q.active ensures i < |s.items| && Alike(s.items[i], r.items[i]) {
      assert WaitsIn(s, i, q.tab) || WorksIn(s, i, q.tab);
      assert Registered(s, g);
    }
    SaneKept(s, r, g);
  }

  /** What is claimed waited until now, after all that was claimed before it and before all that waits on. */
  lemma BatchWaited(s: State, h: nat, n: nat, c: nat)
    requires Inv(s) && h < |s.queues| && n <= |s.queues[h].pending| && c in s.queues[h].pending[..n]
    ensures WaitsIn(s, c, s.queues[h].tab)
    ensures c < |s.items| && Claim(s, h, n).items[c].claimed
    ensures forall k | 0 <= k < |s.claims| :: Before(s, s.claims[k], c)
    ensures forall i: nat | i < |s.items| && Claim(s, h, n).items[i].Waits() :: Before(s, c, i)
  {
    hide Served;
    var q := s.queues[h];
    assert Sane(s, h);
    Cut(q.pending, n);
    assert c in q.pending;
    forall i: nat | i < |s.items| && Claim(s, h, n).items[i].Waits() ensures Before(s, c, i) {
      assert Placed(s, i);
    }
  }

  lemma ClaimAt(s: State, h: nat, n: nat, k: nat)
    requires h < |s.queues| && n <= |s.queues[h].pending| && k < |Claim(s, h, n).claims|
    ensures Claim(s, h, n).claims[k] == if k < |s.claims| then s.claims[k] else s.queues[h].pending[..n][k - |s.claims|]
  {
  }

  lemma ClaimPair(s: State, h: nat, n: nat, k: nat, l: nat)
    requires Inv(s) && h < |s.queues| && n <= |s.queues[h].pending| && k < l < |Claim(s, h, n).claims|
    ensures Before(s, Claim(s, h, n).claims[k], Claim(s, h, n).claims[l])
  {
    hide Sane, Placed, Served, Before, WaitsIn;
    ClaimAt(s, h, n, k);
    ClaimAt(s, h, n, l);
    BatchIncreases(s, h, n);
    if l < |s.claims| {
      assert Before(s, s.claims[k], s.claims[l]);
    } else {
      BatchWaited(s, h, n, s.queues[h].pending[..n][l - |s.claims|]);
    }
  }

  lemma ClaimWait(s: State, h: nat, n: nat, k: nat, i: nat)
    requires Inv(s) && h < |s.queues| && n <= |s.queues[h].pending| && k < |Claim(s, h, n).claims|
    requires i < |s.items| && Claim(s, h, n).items[i].Waits()
    ensures Before(s, Claim(s, h, n).claims[k], i)
  {
    hide Sane, Placed, Served, Before, WaitsIn;
    ClaimAt(s, h, n, k);
    if k < |s.claims| {
      assert Before(s, s.claims[k], i);
    } else {
      BatchWaited(s, h, n, s.queues[h].pending[..n][k - |s.claims|]);
    }
  }

  lemma ClaimMarked(s: State, h: nat, n: nat, k: nat)
    requires Inv(s) && h < |s.queues| && n <= |s.queues[h].pending| && k < |Claim(s, h, n).claims|
    ensures var r := Claim(s, h, n); r.claims[k] < |r.items| && r.items[r.claims[k]].claimed
  {
    hide Sane, Placed, Served, Before, WaitsIn;
    ClaimAt(s, h, n, k);
    if k >= |s.claims| { BatchWaited(s, h, n, s.queues[h].pending[..n][k - |s.claims|]); }
  }

  lemma ClaimOrder(s: State, h: nat, n: nat)
    requires Inv(s) && h < |s.queues| && n <= |s.queues[h].pending|
    ensures Ordered(Claim(s, h, n))
  {
    hide Inv, Before;
    var r := Claim(s, h, n);
    SameBefore(s, r);
    forall k, l | 0 <= k < l < |r.claims| ensures Before(r, r.claims[k], r.claims[l]) { ClaimPair(s, h, n, k, l); }
    forall k, i: nat | 0 <= k < |r.claims| && i < |r.items| && r.items[i].Waits() ensures Before(r, r.claims[k], i) {
      ClaimWait(s, h, n, k, i);
    }
    forall k | 0 <= k < |r.claims| ensures r.claims[k] < |r.items| && r.items[r.claims[k]].claimed {
      ClaimMarked(s, h, n, k);
    }
  }

  lemma BatchIncreases(s: State, h: nat, n: nat)
    requires Inv(s) && h < |s.queues| && n <= |s.queues[h].pending|
    ensures forall k, l | 0 <= k < l < n :: Before(s, s.queues[h].pending[..n][k], s.queues[h].pending[..n][l])
  {
    assert Sane(s, h);
  }

  lemma SameBefore(s: State, r: State)
    requires |r.items| == |s.items| && forall i | 0 <= i < |s.items| :: r.items[i].tab == s.items[i].tab
    ensures forall c: nat, i: nat {:trigger Before(r, c, i)} {:trigger Before(s, c, i)} ::
            Before(r, c, i) == Before(s, c, i)
  {
  }

  lemma ClaimKeeps(s: State, h: nat, n: nat)
    requires Inv(s) && h < |s.queues| && s.queues[h].processor.Some? && 0 < n <= |s.queues[h].pending|
    ensures Inv(Claim(s, h, n))
  {
    hide Increasing, Ordered, Served;
    var q, r := s.queues[h], Claim(s, h, n);
    forall g: nat ensures Sane(r, g) && Served(r, g) { ClaimQueues(s, h, n, g); }
    ClaimOrder(s, h, n);
    assert Sane(s, h);
    Cut(q.pending, n);
    forall i: nat ensures Placed(r, i) {
      assert Placed(s, i);
      if i in q.pending[..n] { assert WaitsIn(s, i, q.tab); }
    }
  }

  function Retired(s: State, h: nat): State
    requires h < |s.queues|
  {
    s.(queues := s.queues[h := s.queues[h].(active := [])], items := Mark(s.items, s.queues[h].active, true))
  }

  lemma RetireKeeps(s: State, h: nat)
    requires Inv(s) && h < |s.queues| && s.queues[h].active != []
    ensures InvBut(Retired(s, h), Some(h)) && Registered(Retired(s, h), h)
  {
    hide Ordered;
    var q, r := s.queues[h], Retired(s, h);
    assert Sane(s, h);
    assert forall i | i in q.active :: WorksIn(s, i, q.tab);
    forall g: nat ensures Sane(r, g) && (g != h ==> Served(r, g)) {
      assert Sane(s, g) && Served(s, g);
      if g == h {
        forall i | i in q.pending ensures WaitsIn(r, i, q.tab) { assert WaitsIn(s, i, q.tab); }
      } else if g < |s.queues| {
        ElsewhereKept(s, r, h, g, q.active);
      }
    }
    forall i: nat ensures Placed(r, i) { assert Placed(s, i); }
    OrderKept(s, r);
  }

  lemma FinishKeeps(s: State, h: nat)
    requires Inv(s) && h < |s.queues| && s.queues[h].active != []
    ensures Inv(Finish(s, h))
  {
    hide Sane, Ordered, Placed, Promote, Inv;
    RetireKeeps(s, h);
    PromoteRestores(Retired(s, h), h);
  }

  // ------------------------------------------------------------------ runs

  datatype Step = Reserves(tab: string) | Cancels(i: nat) | Claims(h: nat, n: nat) | Finishes(h: nat)

  /** Only a queue's processor claims, on the object it holds, a first part of what is pending. */
  ghost predicate Enabled(s: State, step: Step) {
    match step
    case Reserves(tab) => true
    case Cancels(i) => i < |s.items|
    case Claims(h, n) => h < |s.queues| && s.queues[h].processor.Some? && 0 < n <= |s.queues[h].pending|
    case Finishes(h) => h < |s.queues| && s.queues[h].active != []
  }

  ghost function Next(s: State, step: Step): State
    requires Rooted(s) && Enabled(s, step)
  {
    match step
    case Reserves(tab) => Reserve(s, tab).0
    case Cancels(i) => Cancel(s, i)
    case Claims(h, n) => Claim(s, h, n)
    case Finishes(h) => Finish(s, h)
  }

  ghost predicate Goes(s: State, r: State, step: Step) { Rooted(s) && Enabled(s, step) && r == Next(s, step) }

  ghost predicate Leads(s: State, r: State) { exists step :: Goes(s, r, step) }

  ghost predicate Linked(run: seq<State>, k: nat)
    requires 0 < k < |run|
  {
    Leads(run[k - 1], run[k])
  }

  ghost predicate Run(run: seq<State>) {
    |run| > 0 && run[0] == NONE && forall k {:trigger Linked(run, k)} | 0 < k < |run| :: Linked(run, k)
  }

  lemma StepKeeps(s: State, step: Step)
    requires Inv(s) && Enabled(s, step)
    ensures Rooted(s) && Inv(Next(s, step))
  {
    hide Inv, Reserve, Cancel, Claim, Finish;
    InvRooted(s);
    match step
    case Reserves(tab) => ReserveKeeps(s, tab);
    case Cancels(i) => CancelKeeps(s, i);
    case Claims(h, n) => ClaimKeeps(s, h, n);
    case Finishes(h) => FinishKeeps(s, h);
  }

  lemma {:induction false} RunKeeps(run: seq<State>, k: nat)
    requires Run(run) && k < |run|
    ensures Inv(run[k])
  {
    hide Inv, Next, Enabled;
    if k == 0 {
      EmptyInv();
    } else {
      RunKeeps(run, k - 1);
      assert Linked(run, k);
      var step :| Goes(run[k - 1], run[k], step);
      StepKeeps(run[k - 1], step);
    }
  }

  /** No queue is ever stuck: a tab in the registry has a batch at work, or its first waiting message has
      been told to serve it; and a queue with nothing to do is not kept. */
  lemma NoStuckQueue(run: seq<State>, k: nat, tab: string)
    requires Run(run) && k < |run| && tab in run[k].registry
    ensures var s := run[k];
            && s.registry[tab] < |s.queues|
            && var q := s.queues[s.registry[tab]];
               && (q.active != []
                   || (q.pending != [] && q.processor == Some(q.pending[0]) && q.pending[0] < |s.items|
                       && s.items[q.pending[0]].started))
               && (q.active != [] ==> q.processor.None? && |q.pending| <= 8)
               && |q.pending| <= 9
    ensures |run[k].registry| <= 256
  {
    RunKeeps(run, k);
    assert Sane(run[k], run[k].registry[tab]) && Served(run[k], run[k].registry[tab]);
  }

  /** A message that was reserved and has neither been cancelled nor answered is in exactly one list of
      the registered queue of its tab; a queue object that was dropped holds nothing. */
  lemma NothingIsLost(run: seq<State>, k: nat, i: nat, h: nat)
    requires Run(run) && k < |run| && i < |run[k].items| && h < |run[k].queues|
    ensures var s, e := run[k], run[k].items[i];
            && (i in s.queues[h].pending <==> e.Waits() && Registered(s, h) && s.queues[h].tab == e.tab)
            && (i in s.queues[h].active <==> e.AtWork() && Registered(s, h) && s.queues[h].tab == e.tab)
            && (e.Waits() || e.AtWork() ==> e.tab in s.registry && Registered(s, s.registry[e.tab]))
  {
    RunKeeps(run, k);
    var s := run[k];
    assert Sane(s, h) && Placed(s, i);
    assert i in s.queues[h].pending ==> WaitsIn(s, i, s.queues[h].tab);
    assert i in s.queues[h].active ==> WorksIn(s, i, s.queues[h].tab);
  }

  /** Over a whole run no message is claimed twice, and those of one tab are claimed in the order in
      which they were reserved. */
  lemma ClaimedOnceInOrder(run: seq<State>, k: nat, a: nat, b: nat)
    requires Run(run) && k < |run| && a < b < |run[k].claims|
    ensures var s := run[k];
            && s.claims[a] < |s.items| && s.claims[b] < |s.items| && s.claims[a] != s.claims[b]
            && (s.items[s.claims[a]].tab == s.items[s.claims[b]].tab ==> s.claims[a] < s.claims[b])
  {
    RunKeeps(run, k);
    assert Before(run[k], run[k].claims[a], run[k].claims[b]);
  }

  /** Two queue objects of one tab are never both in use. */
  lemma OneBatchPerTab(run: seq<State>, k: nat, g: nat, h: nat)
    requires Run(run) && k < |run| && g < |run[k].queues| && h < |run[k].queues| && g != h
    requires run[k].queues[g].tab == run[k].queues[h].tab
    ensures run[k].queues[g].active == [] || run[k].queues[h].active == []
    ensures run[k].queues[g].processor.None? || run[k].queues[h].processor.None?
  {
    RunKeeps(run, k);
    assert Sane(run[k], g) && Sane(run[k], h);
  }

  // ------------------------------------------------------------------ what each operation does, and no more

  /** Is there room for one more message on the tab?  A new tab needs one of 256 places; one with a batch at work
      takes eight more, and any other nine. */
  predicate RoomFor(s: State, tab: string)
    requires Rooted(s)
  {
    if tab in s.registry then
      var q := s.queues[s.registry[tab]];
      |q.pending| < if q.active == [] then 9 else 8
    else |s.registry| < 256
  }

  /** The queue of the tab, as far as it has come. */
  function PendingOn(s: State, tab: string): seq<nat>
    requires Rooted(s)
  {
    if tab in s.registry then s.queues[s.registry[tab]].pending else []
  }

  function ActiveOn(s: State, tab: string): seq<nat>
    requires Rooted(s)
  {
    if tab in s.registry then s.queues[s.registry[tab]].active else []
  }

  /** Items are only told to start. */
  ghost predicate OnlyTold(before: seq<Item>, after: seq<Item>) {
    |before| <= |after| && forall j | 0 <= j < |before| ::
      after[j] == before[j].(started := after[j].started) && (before[j].started ==> after[j].started)
  }

  /** The message waits behind all others of its tab, and nothing else has changed. */
  ghost predicate Reserved(s: State, tab: string, r: State)
    requires Rooted(s)
  {
    && Rooted(r) && |r.items| == |s.items| + 1 && r.items[..|s.items|] == s.items
    && r.items[|s.items|].tab == tab && r.items[|s.items|].Waits()
    && r.registry.Keys == s.registry.Keys + {tab} && r.claims == s.claims
    && PendingOn(r, tab) == PendingOn(s, tab) + [|s.items|] && ActiveOn(r, tab) == ActiveOn(s, tab)
    && forall t | t in s.registry && t != tab ::
         r.registry[t] == s.registry[t] && r.queues[r.registry[t]] == s.queues[s.registry[t]]
  }

  lemma ReservedBehind(s: State, tab: string)
    requires Rooted(s) && tab in s.registry && RoomFor(s, tab)
    requires s.queues[s.registry[tab]].processor.Some? || s.queues[s.registry[tab]].active != []
    ensures Reserve(s, tab).1 == Some(|s.items|) && Reserved(s, tab, Reserve(s, tab).0)
  {
    BusyStays(Append(s, tab), s.registry[tab]);
  }

  /** A new queue, with its one message told to serve it. */
  function Opened(s: State, tab: string): State {
    State(s.registry[tab := |s.queues|], s.queues + [Queue(tab, [|s.items|], [], Some(|s.items|))],
          s.items + [Item(tab, true, false, false, false)], s.claims)
  }

  lemma ReserveOpens(s: State, tab: string)
    requires Rooted(s) && tab !in s.registry && RoomFor(s, tab)
    ensures Reserve(s, tab) == (Opened(s, tab), Some(|s.items|))
  {
    hide Live;
    var a := Append(Register(s, tab), tab);
    OneLive(|s.items|, a.items);
    assert a.queues[|s.queues|].pending == [|s.items|];
    assert Promote(a, |s.queues|) == Opened(s, tab);
  }

  lemma ReservedFirst(s: State, tab: string)
    requires Rooted(s) && tab !in s.registry && RoomFor(s, tab)
    ensures Reserve(s, tab).1 == Some(|s.items|) && Reserved(s, tab, Reserve(s, tab).0)
  {
    hide Reserve;
    ReserveOpens(s, tab);
    assert PendingOn(s, tab) + [|s.items|] == [|s.items|];
  }

  lemma OneLive(i: nat, items: seq<Item>)
    requires i < |items| && !items[i].cancelled
    ensures Live([i], items) == [i]
  {
    NoneCancelled([i], items);
  }

  /** A message is reserved exactly if there is room, and then waits behind all others of its tab; otherwise nothing
      changes. */
  lemma ReservedExactly(run: seq<State>, k: nat, tab: string)
    requires Run(run) && k < |run|
    ensures var s := run[k];
            && Rooted(s)
            && var (r, item) := Reserve(s, tab);
               if RoomFor(s, tab) then item == Some(|s.items|) && Reserved(s, tab, r) else item.None? && r == s
  {
    hide Reserved, Promote;
    RunKeeps(run, k);
    var s := run[k];
    if RoomFor(s, tab) {
      if tab in s.registry {
        assert Served(s, s.registry[tab]);
        ReservedBehind(s, tab);
      } else {
        ReservedFirst(s, tab);
      }
    }
  }

  /** Promotion only tells somebody to start, or drops an empty queue. */
  lemma PromotedExactly(s: State, h: nat)
    requires InvBut(s, Some(h)) && Registered(s, h)
    ensures var r, q := Promote(s, h), s.queues[h];
            && Rooted(r) && OnlyTold(s.items, r.items) && |r.items| == |s.items| && r.claims == s.claims
            && PendingOn(r, q.tab) == q.pending && ActiveOn(r, q.tab) == q.active
            && (forall t | t in s.registry && t != q.tab ::
                  PendingOn(r, t) == PendingOn(s, t) && ActiveOn(r, t) == ActiveOn(s, t))
  {
    hide Increasing, Ordered, Served, Placed, Promote;
    assert Sane(s, h);
    if s.queues[h].processor.Some? || s.queues[h].active != [] {
      BusyStays(s, h);
    } else {
      PromoteShape(s, h);
    }
  }

  /** A cancelled message is marked so, and taken from the queue if it has not been claimed; an item of a tab without
      a queue, or cancelled before, is left alone; other messages are only told to start, and other tabs untouched. */
  lemma CancelledExactly(run: seq<State>, k: nat, i: nat)
    requires Run(run) && k < |run| && i < |run[k].items|
    ensures var s, e := run[k], run[k].items[i];
            && Rooted(s)
            && var r := Cancel(s, i);
               && (e.tab !in s.registry || e.cancelled ==> r == s)
               && (e.tab in s.registry && !e.cancelled ==>
                     && |r.items| == |s.items| && r.claims == s.claims && Rooted(r)
                     && OnlyTold(s.items[i := e.(cancelled := true)], r.items)
                     && (forall j :: j in PendingOn(r, e.tab) <==> j in PendingOn(s, e.tab) && j != i)
                     && ActiveOn(r, e.tab) == ActiveOn(s, e.tab)
                     && forall t | t in s.registry && t != e.tab ::
                          PendingOn(r, t) == PendingOn(s, t) && ActiveOn(r, t) == ActiveOn(s, t))
  {
    hide Sane, Ordered, Placed, Promote, Served, Strike, Increasing;
    RunKeeps(run, k);
    var s := run[k];
    InvRooted(s);
    if s.items[i].tab in s.registry && !s.items[i].cancelled {
      StruckQueue(s, i);
      StrikeKeeps(s, i);
      PromotedExactly(Struck(s, i), s.registry[s.items[i].tab]);
    }
  }

  /** A batch is exactly the first part of the pending messages, in their order, and each of them is marked claimed;
      the rest go on waiting, nobody else is touched, and the processor is done. */
  lemma ClaimedExactly(s: State, h: nat, n: nat)
    requires Inv(s) && Enabled(s, Claims(h, n))
    ensures var q, r := s.queues[h], Next(s, Claims(h, n));
            && r.registry == s.registry && |r.queues| == |s.queues| && |r.items| == |s.items|
            && r.claims == s.claims + q.pending[..n]
            && r.queues[h] == Queue(q.tab, q.pending[n..], q.pending[..n], None)
            && (forall g | 0 <= g < |s.queues| && g != h :: r.queues[g] == s.queues[g])
            && (forall j: nat | j < |s.items| ::
                  r.items[j] == if j in q.pending[..n] then s.items[j].(claimed := true, started := true)
                                else s.items[j])
  {
    InvRooted(s);
  }

  /** When a batch is finished each message of it has its outcome, the queue has no batch, the same messages as
      before wait, and nobody else is touched but by being told to start. */
  lemma FinishedExactly(s: State, h: nat)
    requires Inv(s) && Enabled(s, Finishes(h))
    ensures Rooted(s)
    ensures var q, r := s.queues[h], Next(s, Finishes(h));
            && Rooted(r) && |r.items| == |s.items| && r.claims == s.claims
            && ActiveOn(r, q.tab) == [] && PendingOn(r, q.tab) == q.pending
            && (forall j: nat | j < |s.items| ::
                  && r.items[j].finished == (s.items[j].finished || j in q.active)
                  && r.items[j] == s.items[j].(started := r.items[j].started, finished := r.items[j].finished)
                  && (s.items[j].started ==> r.items[j].started))
            && (forall t | t in s.registry && t != q.tab ::
                  PendingOn(r, t) == PendingOn(s, t) && ActiveOn(r, t) == ActiveOn(s, t))
  {
    hide Sane, Ordered, Placed, Promote, Served, Increasing;
    InvRooted(s);
    RetireKeeps(s, h);
    PromotedExactly(Retired(s, h), h);
    SoundActive(s, h);
  }

  lemma SoundActive(s: State, h: nat)
    requires Inv(s) && h < |s.queues| && s.queues[h].active != []
    ensures Registered(s, h)
  {
    assert Sane(s, h);
  }

  /** The messages of the tab that wait in front of `i`. */
  ghost function InFront(s: State, i: nat): set<nat>
    requires i < |s.items|
  {
    set j: nat | j < i && j < |s.items| && s.items[j].tab == s.items[i].tab && s.items[j].Waits()
  }

  /** Nobody overtakes: a step never puts anyone in front of a waiting message, and a claim on its tab
      takes somebody away from in front of it, or takes the message itself. */
  lemma NobodyOvertakes(s: State, step: Step, i: nat)
    requires Inv(s) && Enabled(s, step) && i < |s.items| && s.items[i].Waits()
    ensures Rooted(s)
    ensures var r := Next(s, step);
            && i < |r.items| && InFront(r, i) <= InFront(s, i)
            && (step.Claims? && s.queues[step.h].tab == s.items[i].tab && r.items[i].Waits() ==>
                InFront(r, i) < InFront(s, i))
  {
    hide Sane, Ordered, Served, Placed;
    StepItems(s, step);
    if step.Claims? && s.queues[step.h].tab == s.items[i].tab && Next(s, step).items[i].Waits() {
      LeaderIsFirst(s, step.h, step.n, i);
    }
  }

  /** What a step does to the items. */
  lemma StepItems(s: State, step: Step)
    requires Inv(s) && Enabled(s, step)
    ensures Rooted(s)
    ensures var r := Next(s, step);
            |s.items| <= |r.items|
            && forall j: nat | j < |s.items| ::
                 r.items[j].tab == s.items[j].tab && (r.items[j].Waits() ==> s.items[j].Waits())
  {
    hide Sane, Ordered, Served, Placed, Live, Strike, Reserve;
    match step
    case Reserves(tab) => ReserveItems(s, tab);
    case _ =>
  }

  lemma ReserveItems(s: State, tab: string)
    requires Rooted(s)
    ensures var r := Reserve(s, tab).0;
            |s.items| <= |r.items|
            && forall j: nat | j < |s.items| ::
                 r.items[j].tab == s.items[j].tab && (r.items[j].Waits() ==> s.items[j].Waits())
  {
    hide Live;
  }

  lemma LeaderIsFirst(s: State, h: nat, n: nat, i: nat)
    requires Inv(s) && h < |s.queues| && s.queues[h].processor.Some? && 0 < n <= |s.queues[h].pending|
    requires i < |s.items| && s.items[i].Waits() && s.items[i].tab == s.queues[h].tab && Claim(s, h, n).items[i].Waits()
    ensures var j := s.queues[h].pending[0]; j in InFront(s, i) && j < |s.items| && !Claim(s, h, n).items[j].Waits()
  {
    var q := s.queues[h];
    assert Sane(s, h) && Placed(s, i);
    Cut(q.pending, n);
    assert q.pending[0] == q.pending[..n][0] && q.pending[0] in q.pending[..n];
    assert WaitsIn(s, q.pending[0], q.tab);
  }

  // ------------------------------------------------------------------ the dictionaries in place

  class TabDispatchQueues {
    var registry: map<string, nat>
    var queues: seq<Queue>
    var items: seq<Item>
    ghost var claims: seq<nat>

    ghost function View(): State
      reads this
    {
      State(registry, queues, items, claims)
    }

    constructor ()
      ensures View() == NONE
    {
      registry, queues, items, claims := map[], [], [], [];
    }

    method LiveItems(xs: seq<nat>) returns (live: seq<nat>)
      ensures live == Live(xs, items)
    {
      live := [];
      for k := 0 to |xs|
        invariant live == Live(xs[..k], items)
      {
        assert xs[..k + 1][..k] == xs[..k];
        if !(xs[k] < |items| && items[xs[k]].cancelled) { live := live + [xs[k]]; }
      }
      assert xs[..|xs|] == xs;
    }

    static method Without(xs: seq<nat>, x: nat) returns (ys: seq<nat>, found: bool)
      ensures ys == Remove(xs, x) && found == (x in xs)
    {
      var k := 0;
      while k < |xs| && xs[k] != x
        invariant k <= |xs| && x !in xs[..k]
      {
        k := k + 1;
      }
      found := k < |xs|;
      ys := if found then xs[..k] + xs[k + 1..] else xs;
      RemovedAt(xs, x, k);
    }

    static lemma {:induction false} RemovedAt(xs: seq<nat>, x: nat, k: nat)
      requires k <= |xs| && x !in xs[..k] && (k < |xs| ==> xs[k] == x)
      ensures Remove(xs, x) == if k < |xs| then xs[..k] + xs[k + 1..] else xs
      ensures k < |xs| <==> x in xs
    {
      if k > 0 {
        var rest := xs[1..];
        assert xs == [xs[0]] + rest && xs[0] == xs[..k][0] && rest[..k - 1] == xs[..k][1..];
        RemovedAt(rest, x, k - 1);
        assert k < |xs| ==> xs[..k] + xs[k + 1..] == [xs[0]] + (rest[..k - 1] + rest[k..]);
      } else if xs != [] {
        assert xs[..0] + xs[1..] == xs[1..];
      }
    }

    method PromoteQueue(h: nat)
      requires h < |queues|
      modifies this
      ensures View() == Promote(old(View()), h)
    {
      hide Live;
      if queues[h].processor.Some? || queues[h].active != [] { return; }
      var live := LiveItems(queues[h].pending);
      queues := queues[h := queues[h].(pending := live)];
      if live != [] {
        queues := queues[h := queues[h].(processor := Some(live[0]))];
        if live[0] < |items| { items := items[live[0] := items[live[0]].(started := true)]; }
      } else if queues[h].tab in registry && registry[queues[h].tab] == h {
        registry := registry - {queues[h].tab};
      }
    }

    method ReserveItem(tab: string) returns (item: Option<nat>)
      requires Rooted(View())
      modifies this
      ensures (View(), item) == Reserve(old(View()), tab)
    {
      hide Promote;
      if tab !in registry {
        if |registry| >= MAX_QUEUES { return None; }
        registry := registry[tab := |queues|];
        queues := queues + [Queue(tab, [], [], None)];
      }
      var h := registry[tab];
      var waitingLimit := if queues[h].active != [] then MAX_WAITERS else MAX_WAITERS + 1;
      if |queues[h].pending| >= waitingLimit { return None; }
      item := Some(|items|);
      items := items + [Item(tab, false, false, false, false)];
      queues := queues[h := queues[h].(pending := queues[h].pending + [item.value])];
      PromoteQueue(h);
    }

    method CancelItem(i: nat)
      requires i < |items| && Rooted(View())
      modifies this
      ensures View() == Cancel(old(View()), i)
    {
      hide Promote;
      var tab := items[i].tab;
      if tab !in registry || items[i].cancelled { return; }
      var h := registry[tab];
      ghost var q := queues[h];
      items := items[i := items[i].(cancelled := true)];
      if !items[i].claimed {
        var rest, found := Without(queues[h].pending, i);
        if found {
          queues := queues[h := queues[h].(pending := rest)];
        } else {
          assert Remove(queues[h].pending, i) == queues[h].pending by {
            RemovedAt(queues[h].pending, i, |queues[h].pending|);
          }
          rest, found := Without(queues[h].active, i);
          queues := queues[h := queues[h].(active := rest)];
        }
      }
      if queues[h].processor == Some(i) {
        queues := queues[h := queues[h].(processor := None)];
      }
      assert queues == old(queues)[h := Strike(q, i, old(items[i].claimed))];
      PromoteQueue(h);
    }

    /** The last loop of `_collect_tab_dispatch_batch`: the first pending items that match the leader. */
    method Candidates(h: nat, matches: nat -> bool) returns (n: nat)
      requires h < |queues| && Inv(View())
      ensures n <= |queues[h].pending| && forall k | 0 <= k < n :: matches(queues[h].pending[k])
      ensures n < |queues[h].pending| ==> !matches(queues[h].pending[n])
      ensures queues[h].processor.Some? && matches(queues[h].processor.value) ==> n > 0
    {
      n := 0;
      while n < |queues[h].pending| && matches(queues[h].pending[n])
        invariant n <= |queues[h].pending| && forall k | 0 <= k < n :: matches(queues[h].pending[k])
      {
        n := n + 1;
      }
      assert Sane(View(), h);
    }

    method ClaimBatch(h: nat, n: nat) returns (batch: seq<nat>)
      requires h < |queues| && n <= |queues[h].pending| && Inv(View())
      modifies this
      ensures View() == Claim(old(View()), h, n) && batch == old(queues[h].pending[..n])
    {
      hide Inv;
      ghost var was := View();
      batch := queues[h].pending[..n];
      PendingIsKnown(was, h);
      for k := 0 to n
        invariant items == was.items && registry == was.registry && claims == was.claims
        invariant queues == was.queues[h := was.queues[h].(pending := was.queues[h].pending[k..])]
      {
        var rest, found := Without(queues[h].pending, batch[k]);
        assert rest == queues[h].pending[1..];
        queues := queues[h := queues[h].(pending := rest)];
      }
      queues := queues[h := queues[h].(processor := None, active := batch)];
      assert forall i | i in batch :: i in was.queues[h].pending;
      MarkBatch(batch, false);
      claims := claims + batch;
    }

    method MarkBatch(batch: seq<nat>, finish: bool)
      requires forall i | i in batch :: i < |items|
      modifies this`items
      ensures items == Mark(old(items), batch, finish)
    {
      ghost var was := items;
      for k := 0 to |batch|
        invariant |items| == |was|
        invariant forall i | 0 <= i < |items| :: items[i] == Mark(was, batch[..k], finish)[i]
      {
        var i := batch[k];
        assert i in batch;
        items := items[i := if finish then items[i].(finished := true)
          else items[i].(claimed := true, started := true)];
        assert batch[..k + 1] == batch[..k] + [batch[k]];
      }
      assert batch[..|batch|] == batch;
    }

    static lemma PendingIsKnown(s: State, h: nat)
      requires Inv(s) && h < |s.queues|
      ensures forall i | i in s.queues[h].pending :: i < |s.items|
      ensures forall i | i in s.queues[h].active :: i < |s.items|
    {
      assert Sane(s, h);
      forall i | i in s.queues[h].pending ensures i < |s.items| { assert WaitsIn(s, i, s.queues[h].tab); }
      forall i | i in s.queues[h].active ensures i < |s.items| { assert WorksIn(s, i, s.queues[h].tab); }
    }

    method FinishBatch(h: nat)
      requires h < |queues| && Inv(View())
      modifies this
      ensures View() == Finish(old(View()), h)
    {
      hide Inv, Promote;
      ghost var was := View();
      var batch := queues[h].active;
      PendingIsKnown(was, h);
      MarkBatch(batch, true);
      queues := queues[h := queues[h].(active := [])];
      PromoteQueue(h);
    }
  }
}
