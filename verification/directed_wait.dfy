/** The directed long-poll of backend/claude_hub/services/directed_wait.py: waiters on a key share one
    asyncio event, each with its own poll.

    A waiter checks its poll and clears the event in one stretch without a suspension, so the lock around
    that stretch is never contended and does not appear.  `asyncio.wait_for(ev.wait(), ...)` puts the
    waiter on the event's list in the same stretch since Python 3.12; before, as a task of its own, a
    turn of the event loop later.  `atomic` tells the two apart. */
module DirectedWait {

  /** About to poll; between clearing the event and being on its list; on the list, told to go on or not. */
  datatype Phase = Polling | Cleared | Blocked(woken: bool)

  datatype Waiter = Waiter(key: string, subtree: bool, phase: Phase)

  /** `events` holds the flag of each event; `ready` are the waiters whose poll is not empty. */
  datatype State = State(events: map<string, bool>, waiters: map<nat, Waiter>, subtreeWaiters: map<string, int>,
    ready: set<nat>)

  const NONE := State(map[], map[], map[], {})

  // ------------------------------------------------------------------ the operations

  function Notify(waiters: map<nat, Waiter>, key: string): map<nat, Waiter> {
    map u | u in waiters :: if waiters[u].key == key && waiters[u].phase.Blocked?
      then waiters[u].(phase := Blocked(true)) else waiters[u]
  }

  /** `wake`: setting an event that is set already does nothing. */
  function Wake(s: State, key: string): State {
    if key in s.events && !s.events[key] then s.(events := s.events[key := true], waiters := Notify(s.waiters, key))
      else s
  }

  function SubtreeCount(s: State, key: string): int { if key in s.subtreeWaiters then s.subtreeWaiters[key] else 0 }

  function WakeIfSubtree(s: State, key: string): State {
    if SubtreeCount(s, key) > 0 then Wake(s, key) else s
  }

  function WakeEach(s: State, keys: seq<string>, ancestors: seq<string>): State {
    if ancestors != [] then WakeIfSubtree(WakeEach(s, keys, ancestors[..|ancestors| - 1]), ancestors[|ancestors| - 1])
    else if keys != [] then Wake(WakeEach(s, keys[..|keys| - 1], []), keys[|keys| - 1])
    else s
  }

  /** `wait` up to its loop. */
  function Begin(s: State, u: nat, key: string, subtree: bool, ready: bool): State {
    State(if key in s.events then s.events else s.events[key := false],
          s.waiters[u := Waiter(key, subtree, Polling)],
          if subtree then s.subtreeWaiters[key := SubtreeCount(s, key) + 1] else s.subtreeWaiters,
          if ready then s.ready + {u} else s.ready - {u})
  }

  /** The `finally` of `wait`, on every way out. */
  function Leave(s: State, u: nat): State
    requires u in s.waiters
  {
    var w := s.waiters[u];
    var remaining := (if w.key in s.subtreeWaiters then s.subtreeWaiters[w.key] else 1) - 1;
    s.(waiters := s.waiters - {u},
       subtreeWaiters := if !w.subtree then s.subtreeWaiters
                         else if remaining > 0 then s.subtreeWaiters[w.key := remaining]
                         else s.subtreeWaiters - {w.key})
  }

  function SetPhase(s: State, u: nat, phase: Phase): State
    requires u in s.waiters
  {
    s.(waiters := s.waiters[u := s.waiters[u].(phase := phase)])
  }

  /** The locked stretch: return what the poll found, or clear the event and go on to wait for it. */
  function Check(s: State, u: nat, atomic: bool): State
    requires u in s.waiters
  {
    if u in s.ready then Leave(s, u)
    else SetPhase(s, u, if atomic then Blocked(false) else Cleared).(events := s.events[s.waiters[u].key := false])
  }

  /** `Event.wait` of its own task: a set event is not waited for. */
  function Register(s: State, u: nat): State
    requires u in s.waiters && s.waiters[u].key in s.events
  {
    SetPhase(s, u, if s.events[s.waiters[u].key] then Polling else Blocked(false))
  }

  datatype Step =
    | Begins(u: nat, key: string, subtree: bool, ready: bool)
    | Checks(u: nat) | Registers(u: nat) | Resumes(u: nat) | Leaves(u: nat)
    | Appends(more: set<nat>, keys: seq<string>, ancestors: seq<string>)
    | Recedes(fewer: set<nat>)

  /** How the waiters of one key relate: anyhow, at most one at a time, or all with the same poll. */
  datatype Sharing = Anyhow | OnePerKey | SamePoll

  /** What an append makes ready is woken in the same stretch: by its key, or as a subtree waiter. */
  ghost predicate Covered(s: State, u: nat, keys: seq<string>, ancestors: seq<string>)
    requires u in s.waiters
  {
    s.waiters[u].key in keys || (s.waiters[u].subtree && s.waiters[u].key in ancestors)
  }

  ghost predicate Enabled(s: State, step: Step) {
    match step
    case Begins(u, key, subtree, ready) => u !in s.waiters
    case Checks(u) => u in s.waiters && s.waiters[u].phase.Polling?
    case Registers(u) => u in s.waiters && s.waiters[u].phase.Cleared? && s.waiters[u].key in s.events
    case Resumes(u) => u in s.waiters && s.waiters[u].phase == Blocked(true)
    case Leaves(u) => u in s.waiters
    case Appends(more, keys, ancestors) =>
      forall u | u in more && u in s.waiters && u !in s.ready :: Covered(s, u, keys, ancestors)
    case Recedes(fewer) => true
  }

  ghost function Next(s: State, step: Step, atomic: bool): State
    requires Enabled(s, step)
  {
    match step
    case Begins(u, key, subtree, ready) => Begin(s, u, key, subtree, ready)
    case Checks(u) => Check(s, u, atomic)
    case Registers(u) => Register(s, u)
    case Resumes(u) => SetPhase(s, u, Polling)
    case Leaves(u) => Leave(s, u)
    case Appends(more, keys, ancestors) => WakeEach(s.(ready := s.ready + more), keys, ancestors)
    case Recedes(fewer) => s.(ready := s.ready - fewer)
  }

  ghost predicate Allows(s: State, sharing: Sharing) {
    forall u, v | u in s.waiters && v in s.waiters && u != v && s.waiters[u].key == s.waiters[v].key ::
      match sharing
      case Anyhow => true
      case OnePerKey => false
      case SamePoll => u in s.ready <==> v in s.ready
  }

  // ------------------------------------------------------------------ the invariant

  ghost function Subtrees(s: State, key: string): set<nat> {
    set u | u in s.waiters && s.waiters[u].key == key && s.waiters[u].subtree
  }

  /** The count is exact, and absent at zero. */
  ghost predicate Counted(s: State, key: string) {
    && (key in s.subtreeWaiters <==> Subtrees(s, key) != {})
    && (key in s.subtreeWaiters ==> s.subtreeWaiters[key] == |Subtrees(s, key)|)
  }

  ghost predicate Lost(s: State, u: nat) { u in s.waiters && s.waiters[u].phase == Blocked(false) && u in s.ready }

  ghost predicate WaiterOk(s: State, u: nat)
    requires u in s.waiters
  {
    var w := s.waiters[u];
    && w.key in s.events
    && (w.phase == Blocked(false) ==> !s.events[w.key] && u !in s.ready)
    && (w.phase.Cleared? && u in s.ready ==> s.events[w.key])
  }

  ghost predicate AllCounted(s: State) { forall key {:trigger Counted(s, key)} :: Counted(s, key) }

  ghost predicate Inv(s: State, atomic: bool) {
    && AllCounted(s)
    && (forall u {:trigger WaiterOk(s, u)} | u in s.waiters ::
          WaiterOk(s, u) && (atomic ==> !s.waiters[u].phase.Cleared?))
  }

  lemma PhaseCounts(s: State, r: State, key: string)
    requires Counted(s, key) && r.subtreeWaiters == s.subtreeWaiters && r.waiters.Keys == s.waiters.Keys
    requires forall u | u in s.waiters :: r.waiters[u] == s.waiters[u].(phase := r.waiters[u].phase)
    ensures Counted(r, key)
  {
    assert Subtrees(r, key) == Subtrees(s, key);
  }

  lemma BeginCounts(s: State, u: nat, k: string, subtree: bool, ready: bool, key: string)
    requires u !in s.waiters && Counted(s, key)
    ensures Counted(Begin(s, u, k, subtree, ready), key)
  {
    var after := Subtrees(Begin(s, u, k, subtree, ready), key);
    if subtree && k == key {
      assert after == Subtrees(s, key) + {u} && u !in Subtrees(s, key);
    } else {
      assert after == Subtrees(s, key);
    }
  }

  lemma LeaveCounts(s: State, u: nat, key: string)
    requires u in s.waiters && Counted(s, key)
    ensures Counted(Leave(s, u), key)
  {
    var w, before := s.waiters[u], Subtrees(s, key);
    if w.subtree && key == w.key {
      assert u in before && Subtrees(Leave(s, u), key) == before - {u};
      assert |before - {u}| == |before| - 1;
      assert before - {u} != {} <==> |before| - 1 > 0;
    } else {
      assert Subtrees(Leave(s, u), key) == before;
    }
  }

  ghost predicate Flagged(s: State, u: nat)
    requires u in s.waiters
  {
    s.waiters[u].key in s.events && (s.waiters[u].phase == Blocked(false) ==> !s.events[s.waiters[u].key])
  }

  /** The waiters as they were, but some told to go on; events only set. */
  ghost predicate Onward(s: State, r: State) {
    && r.waiters.Keys == s.waiters.Keys && r.subtreeWaiters == s.subtreeWaiters && r.ready == s.ready
    && r.events.Keys == s.events.Keys
    && (forall key | key in s.events :: s.events[key] ==> r.events[key])
    && (forall u | u in s.waiters ::
          r.waiters[u] == s.waiters[u]
          || (s.waiters[u].phase.Blocked? && r.waiters[u] == s.waiters[u].(phase := Blocked(true))))
    && (forall u | u in s.waiters && Flagged(s, u) :: Flagged(r, u))
  }

  lemma WakeOnward(s: State, key: string)
    ensures Onward(s, Wake(s, key))
    ensures key in s.events ==> Wake(s, key).events[key]
  {
  }

  lemma OnwardTrans(a: State, b: State, c: State)
    requires Onward(a, b) && Onward(b, c)
    ensures Onward(a, c)
  {
  }

  lemma {:induction false} WakeEachOnward(s: State, keys: seq<string>, ancestors: seq<string>)
    ensures var r := WakeEach(s, keys, ancestors);
            && Onward(s, r)
            && (forall key | key in keys && key in s.events :: r.events[key])
            && (forall key | key in ancestors && key in s.events && SubtreeCount(s, key) > 0 :: r.events[key])
    decreases |ancestors|, |keys|
  {
    if ancestors != [] {
      var init, last := ancestors[..|ancestors| - 1], ancestors[|ancestors| - 1];
      WakeEachOnward(s, keys, init);
      var m := WakeEach(s, keys, init);
      WakeOnward(m, last);
      OnwardTrans(s, m, Wake(m, last));
      assert ancestors == init + [last];
    } else if keys != [] {
      var init, last := keys[..|keys| - 1], keys[|keys| - 1];
      WakeEachOnward(s, init, []);
      var m := WakeEach(s, init, []);
      WakeOnward(m, last);
      OnwardTrans(s, m, Wake(m, last));
      assert keys == init + [last];
    }
  }

  lemma AppendKeeps(s: State, more: set<nat>, keys: seq<string>, ancestors: seq<string>, atomic: bool)
    requires Inv(s, atomic) && Enabled(s, Appends(more, keys, ancestors))
    ensures Inv(Next(s, Appends(more, keys, ancestors), atomic), atomic)
  {
    hide WakeEach;
    var m := s.(ready := s.ready + more);
    var r := WakeEach(m, keys, ancestors);
    WakeEachOnward(m, keys, ancestors);
    forall key ensures Counted(r, key) { assert Counted(s, key); PhaseCounts(s, r, key); }
    forall u | u in r.waiters ensures WaiterOk(r, u) && (atomic ==> !r.waiters[u].phase.Cleared?) {
      assert WaiterOk(s, u) && Flagged(m, u);
      if u in more && u !in s.ready { CoveredIsSet(s, m, r, u, keys, ancestors); }
    }
  }

  lemma CoveredIsSet(s: State, m: State, r: State, u: nat, keys: seq<string>, ancestors: seq<string>)
    requires u in s.waiters && s.waiters[u].key in s.events && Covered(s, u, keys, ancestors)
    requires Counted(s, s.waiters[u].key) && m == s.(ready := m.ready)
    requires forall key | key in keys && key in m.events :: key in r.events && r.events[key]
    requires forall key | key in ancestors && key in m.events && SubtreeCount(m, key) > 0 ::
               key in r.events && r.events[key]
    ensures s.waiters[u].key in r.events && r.events[s.waiters[u].key]
  {
    var key := s.waiters[u].key;
    if key !in keys {
      assert u in Subtrees(s, key);
      assert |Subtrees(s, key)| > 0;
    }
  }

  lemma BeginKeeps(s: State, u: nat, key: string, subtree: bool, ready: bool, atomic: bool)
    requires Inv(s, atomic) && u !in s.waiters
    ensures Inv(Begin(s, u, key, subtree, ready), atomic)
  {
    var r := Begin(s, u, key, subtree, ready);
    forall k ensures Counted(r, k) { assert Counted(s, k); BeginCounts(s, u, key, subtree, ready, k); }
    forall v | v in r.waiters ensures WaiterOk(r, v) && (atomic ==> !r.waiters[v].phase.Cleared?) {
      if v != u { assert WaiterOk(s, v); }
    }
  }

  lemma LeaveKeeps(s: State, u: nat, atomic: bool)
    requires Inv(s, atomic) && u in s.waiters
    ensures Inv(Leave(s, u), atomic)
  {
    var r, w := Leave(s, u), s.waiters[u];
    forall k ensures Counted(r, k) { assert Counted(s, k); LeaveCounts(s, u, k); }
    forall v | v in r.waiters ensures WaiterOk(r, v) && (atomic ==> !r.waiters[v].phase.Cleared?) {
      assert WaiterOk(s, v);
    }
  }

  /** Another waiter of the key stands between clearing and the list, and its poll is not empty: clearing
      the event now makes it miss what it was told. */
  ghost predicate Hazard(s: State, u: nat)
    requires u in s.waiters
  {
    exists v :: v in s.waiters && v != u && s.waiters[v].key == s.waiters[u].key && s.waiters[v].phase.Cleared?
      && v in s.ready
  }

  lemma PhaseKeeps(s: State, r: State, u: nat, atomic: bool)
    requires Inv(s, atomic) && u in s.waiters && r.waiters.Keys == s.waiters.Keys
    requires r == SetPhase(s, u, r.waiters[u].phase).(events := r.events)
    requires r.events.Keys == s.events.Keys
             && forall key | key in s.events && key != s.waiters[u].key :: r.events[key] == s.events[key]
    requires WaiterOk(r, u) && (atomic ==> !r.waiters[u].phase.Cleared?)
    requires forall v | v in s.waiters && v != u && s.waiters[v].key == s.waiters[u].key :: WaiterOk(r, v)
    ensures Inv(r, atomic)
  {
    forall k ensures Counted(r, k) { assert Counted(s, k); PhaseCounts(s, r, k); }
    forall v | v in r.waiters ensures WaiterOk(r, v) && (atomic ==> !r.waiters[v].phase.Cleared?) {
      assert WaiterOk(s, v);
    }
  }

  /** A check keeps the invariant exactly when it is no hazard. */
  lemma CheckKeeps(s: State, u: nat, atomic: bool)
    requires Inv(s, atomic) && Enabled(s, Checks(u))
    ensures Inv(Check(s, u, atomic), atomic) <==> u in s.ready || !Hazard(s, u)
  {
    var r := Check(s, u, atomic);
    assert WaiterOk(s, u);
    if u in s.ready {
      LeaveKeeps(s, u, atomic);
    } else if Hazard(s, u) {
      var v :| v in s.waiters && v != u && s.waiters[v].key == s.waiters[u].key && s.waiters[v].phase.Cleared?
        && v in s.ready;
      assert !WaiterOk(r, v);
    } else {
      forall v | v in s.waiters && v != u && s.waiters[v].key == s.waiters[u].key ensures WaiterOk(r, v) {
        assert WaiterOk(s, v);
      }
      PhaseKeeps(s, r, u, atomic);
    }
  }

  lemma RegisterKeeps(s: State, u: nat, atomic: bool)
    requires Inv(s, atomic) && Enabled(s, Registers(u))
    ensures Inv(Register(s, u), atomic)
  {
    assert WaiterOk(s, u);
    forall v | v in s.waiters && v != u ensures WaiterOk(Register(s, u), v) { assert WaiterOk(s, v); }
    PhaseKeeps(s, Register(s, u), u, atomic);
  }

  lemma ResumeKeeps(s: State, u: nat, atomic: bool)
    requires Inv(s, atomic) && Enabled(s, Resumes(u))
    ensures Inv(SetPhase(s, u, Polling), atomic)
  {
    assert WaiterOk(s, u);
    forall v | v in s.waiters && v != u ensures WaiterOk(SetPhase(s, u, Polling), v) { assert WaiterOk(s, v); }
    PhaseKeeps(s, SetPhase(s, u, Polling), u, atomic);
  }

  lemma RecedeKeeps(s: State, fewer: set<nat>, atomic: bool)
    requires Inv(s, atomic)
    ensures Inv(s.(ready := s.ready - fewer), atomic)
  {
    var r := s.(ready := s.ready - fewer);
    forall k ensures Counted(r, k) { assert Counted(s, k); PhaseCounts(s, r, k); }
    forall v | v in r.waiters ensures WaiterOk(r, v) && (atomic ==> !r.waiters[v].phase.Cleared?) {
      assert WaiterOk(s, v);
    }
  }

  lemma NoHazard(s: State, u: nat, atomic: bool, sharing: Sharing)
    requires Inv(s, atomic) && u in s.waiters && u !in s.ready && Allows(s, sharing) && (atomic || !sharing.Anyhow?)
    ensures !Hazard(s, u)
  {
    forall v | v in s.waiters && v != u && s.waiters[v].key == s.waiters[u].key && s.waiters[v].phase.Cleared?
      ensures v !in s.ready
    {
      assert WaiterOk(s, v);
    }
  }

  lemma StepKeeps(s: State, step: Step, atomic: bool, sharing: Sharing)
    requires Inv(s, atomic) && Enabled(s, step) && Allows(s, sharing) && (atomic || !sharing.Anyhow?)
    ensures Inv(Next(s, step, atomic), atomic)
  {
    hide Inv, Allows, Check, Begin, Leave, WakeEach, Register, SetPhase, Hazard;
    match step
    case Begins(u, key, subtree, ready) => BeginKeeps(s, u, key, subtree, ready, atomic);
    case Checks(u) => if u !in s.ready { NoHazard(s, u, atomic, sharing); } CheckKeeps(s, u, atomic);
    case Registers(u) => RegisterKeeps(s, u, atomic);
    case Resumes(u) => ResumeKeeps(s, u, atomic);
    case Leaves(u) => LeaveKeeps(s, u, atomic);
    case Appends(more, keys, ancestors) => AppendKeeps(s, more, keys, ancestors, atomic);
    case Recedes(fewer) => RecedeKeeps(s, fewer, atomic);
  }

  // ------------------------------------------------------------------ runs

  ghost predicate Leads(s: State, r: State, step: Step, atomic: bool) { Enabled(s, step) && r == Next(s, step, atomic) }

  ghost predicate Run(run: seq<State>, steps: seq<Step>, atomic: bool, sharing: Sharing) {
    && |run| == |steps| + 1 && run[0] == NONE
    && (forall k | 0 <= k < |steps| :: Leads(run[k], run[k + 1], steps[k], atomic))
    && (forall k | 0 <= k < |run| :: Allows(run[k], sharing))
  }

  lemma {:induction false} RunKeeps(run: seq<State>, steps: seq<Step>, atomic: bool, sharing: Sharing, k: nat)
    requires Run(run, steps, atomic, sharing) && k < |run| && (atomic || !sharing.Anyhow?)
    ensures Inv(run[k], atomic)
  {
    hide Next, Enabled, Inv, Allows;
    if k == 0 {
      EmptyInv(atomic);
    } else {
      RunKeeps(run, steps, atomic, sharing, k - 1);
      assert Leads(run[k - 1], run[k - 1 + 1], steps[k - 1], atomic);
      StepKeeps(run[k - 1], steps[k - 1], atomic, sharing);
    }
  }

  lemma EmptyInv(atomic: bool)
    ensures Inv(NONE, atomic)
  {
    assert forall key :: Subtrees(NONE, key) == {};
  }

  /** A waiter stays blocked while its poll has something. */
  ghost predicate LosesWakeup(run: seq<State>) {
    exists k, u :: 0 <= k < |run| && Lost(run[k], u)
  }

  /** No wakeup is ever lost, with any number of waiters with different polls on a key, exactly if
      waiters get on the event's list in the stretch that clears it, or no two waiters with different
      polls share a key. */
  lemma NoLostWakeupExactly(atomic: bool, sharing: Sharing)
    ensures (forall run, steps | Run(run, steps, atomic, sharing) :: !LosesWakeup(run)) <==> atomic || !sharing.Anyhow?
  {
    if atomic || !sharing.Anyhow? {
      forall run, steps | Run(run, steps, atomic, sharing) ensures !LosesWakeup(run) {
        forall k: nat, u | k < |run| ensures !Lost(run[k], u) {
          RunKeeps(run, steps, atomic, sharing, k);
          NotLost(run[k], u, atomic);
        }
      }
    } else {
      var run, steps := LostRun();
      assert Run(run, steps, atomic, sharing);
    }
  }

  lemma NotLost(s: State, u: nat, atomic: bool)
    requires Inv(s, atomic)
    ensures !Lost(s, u)
  {
    assert u in s.waiters ==> WaiterOk(s, u);
  }

  /** A subtree waiter and a plain one on one key: the first has cleared the event; an event of a descendant,
      which is nothing to the second, sets it; the second finds nothing and clears it again; and the first
      then waits for ever. */
  lemma LostRun() returns (run: seq<State>, steps: seq<Step>)
    ensures Run(run, steps, false, Anyhow) && LosesWakeup(run)
  {
    var a, b := Waiter("k", true, Polling), Waiter("k", false, Polling);
    var c, d := Waiter("k", true, Cleared), Waiter("k", false, Cleared);
    var n := map["k" := 1];
    var s1 := State(map["k" := false], map[0 := a], n, {});
    var s2 := State(map["k" := false], map[0 := a, 1 := b], n, {});
    var s3 := State(map["k" := false], map[0 := c, 1 := b], n, {});
    var s4 := State(map["k" := true], map[0 := c, 1 := b], n, {0});
    var s5 := State(map["k" := false], map[0 := c, 1 := d], n, {0});
    var s6 := State(map["k" := false], map[0 := Waiter("k", true, Blocked(false)), 1 := d], n, {0});
    steps := [Begins(0, "k", true, false), Begins(1, "k", false, false), Checks(0), Appends({0}, ["d"], ["k"]),
              Checks(1), Registers(0)];
    run := [NONE, s1, s2, s3, s4, s5, s6];
    assert Leads(NONE, s1, steps[0], false);
    assert Leads(s1, s2, steps[1], false);
    assert Leads(s2, s3, steps[2], false);
    AppendExample(s3, s4);
    assert Leads(s4, s5, steps[4], false);
    assert Leads(s5, s6, steps[5], false);
    assert Lost(run[6], 0);
  }

  lemma AppendExample(s: State, r: State)
    requires s == State(map["k" := false], map[0 := Waiter("k", true, Cleared), 1 := Waiter("k", false, Polling)],
                        map["k" := 1], {})
    requires r == s.(events := map["k" := true], ready := {0})
    ensures Leads(s, r, Appends({0}, ["d"], ["k"]), false)
  {
    var m := s.(ready := s.ready + {0});
    assert ["k"][..0] == [] && ["d"][..0] == [];
    assert "d" !in m.events by { assert "d"[0] != "k"[0]; }
    assert WakeEach(m, [], []) == m;
    assert WakeEach(m, ["d"], []) == m;
    assert Notify(m.waiters, "k") == m.waiters;
  }

  /** The subtree count of a key is the number of subtree waits in progress, and absent at zero, after
      every step of every run, whatever the way a wait ended. */
  lemma {:induction false} CountsAreExact(run: seq<State>, steps: seq<Step>, atomic: bool, sharing: Sharing, k: nat,
                                          key: string)
    requires Run(run, steps, atomic, sharing) && k < |run|
    ensures Counted(run[k], key)
  {
    hide Next, Enabled, Allows, Counted;
    if k == 0 {
      EmptyInv(true);
    } else {
      assert Leads(run[k - 1], run[k - 1 + 1], steps[k - 1], atomic);
      var s := run[k - 1];
      forall other ensures Counted(s, other) { CountsAreExact(run, steps, atomic, sharing, k - 1, other); }
      StepCounts(run[k - 1], steps[k - 1], atomic, key);
    }
  }

  lemma StepCounts(s: State, step: Step, atomic: bool, key: string)
    requires Enabled(s, step) && AllCounted(s)
    ensures Counted(Next(s, step, atomic), key)
  {
    hide WakeEach, Counted, Leave, Begin;
    assert Counted(s, key);
    match step
    case Begins(u, k, subtree, ready) => BeginCounts(s, u, k, subtree, ready, key);
    case Checks(u) => if u in s.ready { LeaveCounts(s, u, key); } else { PhaseCounts(s, Next(s, step, atomic), key); }
    case Leaves(u) => LeaveCounts(s, u, key);
    case Appends(more, keys, ancestors) =>
      WakeEachOnward(s.(ready := s.ready + more), keys, ancestors);
      PhaseCounts(s, Next(s, step, atomic), key);
    case _ => PhaseCounts(s, Next(s, step, atomic), key);
  }

  /** A waiter with something to collect needs no further wake: its own next steps bring it to a poll,
      and the poll ends the wait. */
  lemma ReadyWaiterCollects(run: seq<State>, steps: seq<Step>, atomic: bool, sharing: Sharing, k: nat, u: nat)
    requires Run(run, steps, atomic, sharing) && k < |run| && (atomic || !sharing.Anyhow?)
    requires u in run[k].waiters && u in run[k].ready
    ensures var s := run[k];
            && (s.waiters[u].phase.Polling? ==> Enabled(s, Checks(u)) && u !in Next(s, Checks(u), atomic).waiters)
            && (s.waiters[u].phase.Cleared? ==> Enabled(s, Registers(u)) && u in Next(s, Registers(u), atomic).waiters
                                                && Next(s, Registers(u), atomic).waiters[u].phase.Polling?)
            && (s.waiters[u].phase.Blocked? ==> Enabled(s, Resumes(u)) && u in Next(s, Resumes(u), atomic).waiters
                                                && Next(s, Resumes(u), atomic).waiters[u].phase.Polling?)
  {
    hide Run;
    RunKeeps(run, steps, atomic, sharing, k);
    assert WaiterOk(run[k], u);
  }

  // ------------------------------------------------------------------ what each step does, and no more

  /** At every step of every run: a wait ends exactly by a timeout or cancellation of its own, or by its own poll if
      that has something; in particular a poll that finds nothing ends no wait. */
  lemma EndsExactly(run: seq<State>, steps: seq<Step>, atomic: bool, sharing: Sharing, k: nat, u: nat)
    requires Run(run, steps, atomic, sharing) && k < |steps| && u in run[k].waiters
    ensures u !in run[k + 1].waiters <==>
              steps[k] == Leaves(u) || (steps[k] == Checks(u) && u in run[k].ready)
  {
    assert Leads(run[k], run[k + 1], steps[k], atomic);
    OthersStay(run[k], steps[k], atomic, u);
  }

  lemma OthersStay(s: State, step: Step, atomic: bool, u: nat)
    requires Enabled(s, step) && u in s.waiters
    ensures u !in Next(s, step, atomic).waiters <==> step == Leaves(u) || (step == Checks(u) && u in s.ready)
  {
    hide WakeEach;
    if step.Appends? { WakeEachOnward(s.(ready := s.ready + step.more), step.keys, step.ancestors); }
  }

  /** A poll that finds nothing clears the event of its key and leaves the waiter about to wait for it, on its list
      already where that is one stretch; one that finds something leaves nothing of the wait behind.  No other
      waiter and no other event is touched. */
  lemma PollExactly(s: State, u: nat, atomic: bool)
    requires Enabled(s, Checks(u))
    ensures var w, r := s.waiters[u], Next(s, Checks(u), atomic);
            && r.ready == s.ready
            && (u in s.ready ==>
                  && r.events == s.events && r.waiters.Keys == s.waiters.Keys - {u}
                  && forall v | v in r.waiters :: r.waiters[v] == s.waiters[v])
            && (u !in s.ready ==>
                  && r.events.Keys == s.events.Keys + {w.key} && !r.events[w.key]
                  && (forall key | key in s.events && key != w.key :: r.events[key] == s.events[key])
                  && r.waiters.Keys == s.waiters.Keys && r.subtreeWaiters == s.subtreeWaiters
                  && r.waiters[u] == Waiter(w.key, w.subtree, if atomic then Blocked(false) else Cleared)
                  && forall v | v in s.waiters && v != u :: r.waiters[v] == s.waiters[v])
  {
  }

  /** The other steps of a waiter: it begins by polling, with its event there; put on the list of its event it waits,
      unless the event is set; told to go on it polls again; and leaving it takes nothing with it. */
  lemma WaiterStepsExactly(s: State, step: Step, atomic: bool, u: nat)
    requires Enabled(s, step)
    requires step == Registers(u) || step == Resumes(u) || step == Leaves(u) || (step.Begins? && step.u == u)
    ensures var r := Next(s, step, atomic);
            && (forall v | v in s.waiters && v != u :: v in r.waiters && r.waiters[v] == s.waiters[v])
            && (forall v | v in r.waiters && v != u :: v in s.waiters)
            && (step.Registers? ==>
                  && r == s.(waiters := r.waiters) && u in r.waiters
                  && r.waiters[u] == s.waiters[u].(phase := if s.events[s.waiters[u].key] then Polling
                                                            else Blocked(false)))
            && (step.Resumes? ==>
                  r == s.(waiters := r.waiters) && u in r.waiters && r.waiters[u] == s.waiters[u].(phase := Polling))
            && (step.Leaves? ==> u !in r.waiters && r.events == s.events && r.ready == s.ready)
            && (step.Begins? ==>
                  && u in r.waiters && r.waiters[u] == Waiter(step.key, step.subtree, Polling)
                  && (u in r.ready <==> step.ready) && r.ready - {u} == s.ready - {u}
                  && r.events.Keys == s.events.Keys + {step.key}
                  && (forall key | key in s.events :: r.events[key] == s.events[key])
                  && (step.key !in s.events ==> !r.events[step.key]))
  {
  }

  /** Which events a series of wakes sets: those of its keys, and of the ancestors with subtree waiters. */
  ghost predicate Woken(s: State, keys: seq<string>, ancestors: seq<string>, key: string) {
    key in keys || (key in ancestors && SubtreeCount(s, key) > 0)
  }

  /** Exactly those events have come to be set, and exactly the waiters on them told to go on. */
  ghost predicate Awoken(s: State, r: State, keys: seq<string>, ancestors: seq<string>) {
    && r.events.Keys == s.events.Keys && r.waiters.Keys == s.waiters.Keys
    && r.subtreeWaiters == s.subtreeWaiters && r.ready == s.ready
    && (forall key | key in s.events :: r.events[key] <==> s.events[key] || Woken(s, keys, ancestors, key))
    && (forall u | u in s.waiters :: r.waiters[u] == Hears(s.waiters[u], s.events, r.events))
  }

  /** A waiter on the list of an event that has come to be set is told to go on. */
  function Hears(w: Waiter, before: map<string, bool>, after: map<string, bool>): Waiter {
    if w.phase.Blocked? && w.key in before && !before[w.key] && w.key in after && after[w.key]
    then w.(phase := Blocked(true)) else w
  }

  lemma AwokenByKey(s: State, m: State, keys: seq<string>, last: string)
    requires Awoken(s, m, keys, [])
    ensures Awoken(s, Wake(m, last), keys + [last], [])
  {
  }

  lemma AwokenByAncestor(s: State, m: State, keys: seq<string>, ancestors: seq<string>, last: string)
    requires Awoken(s, m, keys, ancestors)
    ensures Awoken(s, WakeIfSubtree(m, last), keys, ancestors + [last])
  {
  }

  /** A series of wakes sets exactly the events it names, subtree ones if there are subtree waiters, and tells exactly
      the waiters on events that were not set before to go on. */
  lemma {:induction false} WakesExactly(s: State, keys: seq<string>, ancestors: seq<string>)
    ensures Awoken(s, WakeEach(s, keys, ancestors), keys, ancestors)
    decreases |ancestors|, |keys|
  {
    if ancestors != [] {
      hide Awoken;
      var init, last := ancestors[..|ancestors| - 1], ancestors[|ancestors| - 1];
      WakesExactly(s, keys, init);
      AwokenByAncestor(s, WakeEach(s, keys, init), keys, init, last);
      assert ancestors == init + [last];
    } else if keys != [] {
      hide Awoken;
      var init, last := keys[..|keys| - 1], keys[|keys| - 1];
      WakesExactly(s, init, []);
      AwokenByKey(s, WakeEach(s, init, []), init, last);
      assert keys == init + [last];
    }
  }

  // ------------------------------------------------------------------ the dictionaries in place

  class DirectedWaitCoordinator {
    var events: map<string, bool>
    var subtreeWaiters: map<string, int>
    var waiters: map<nat, Waiter>
    ghost var ready: set<nat>

    ghost function View(): State
      reads this
    {
      State(events, waiters, subtreeWaiters, ready)
    }

    constructor ()
      ensures View() == NONE
    {
      events, subtreeWaiters, waiters, ready := map[], map[], map[], {};
    }

    method WakeKey(key: string)
      modifies this`events, this`waiters
      ensures View() == Wake(old(View()), key)
    {
      if key in events && !events[key] {
        events := events[key := true];
        waiters := Notify(waiters, key);
      }
    }

    method WakeSubtree(key: string)
      modifies this`events, this`waiters
      ensures View() == WakeIfSubtree(old(View()), key)
    {
      var count := if key in subtreeWaiters then subtreeWaiters[key] else 0;
      if count > 0 { WakeKey(key); }
    }

    /** `_wake_task_consumers` of task_mailbox.py, after an event for `key` was appended: the ancestors
        are those of its task, nearest first. */
    method WakeTaskConsumers(key: string, ancestors: seq<string>)
      modifies this`events, this`waiters
      ensures View() == WakeEach(old(View()), [key], ancestors)
    {
      WakeKey(key);
      assert [key][..0] == [];
      assert View() == WakeEach(old(View()), [key], ancestors[..0]);
      for i := 0 to |ancestors|
        invariant View() == WakeEach(old(View()), [key], ancestors[..i])
      {
        assert ancestors[..i + 1][..i] == ancestors[..i];
        WakeSubtree(ancestors[i]);
      }
      assert ancestors[..|ancestors|] == ancestors;
    }

    method BeginWait(u: nat, key: string, subtree: bool, ghost has: bool)
      modifies this
      ensures View() == Begin(old(View()), u, key, subtree, has)
    {
      if key !in events { events := events[key := false]; }
      if subtree {
        subtreeWaiters := subtreeWaiters[key := (if key in subtreeWaiters then subtreeWaiters[key] else 0) + 1];
      }
      waiters := waiters[u := Waiter(key, subtree, Polling)];
      ready := if has then ready + {u} else ready - {u};
    }

    /** The locked stretch of the loop; `found` says that the poll returned something. */
    method PollOrClear(u: nat, found: bool, atomic: bool)
      requires u in waiters && found == (u in ready)
      modifies this
      ensures View() == Check(old(View()), u, atomic)
    {
      if found {
        EndWait(u);
        return;
      }
      events := events[waiters[u].key := false];
      waiters := waiters[u := waiters[u].(phase := if atomic then Blocked(false) else Cleared)];
    }

    method RegisterWaiter(u: nat)
      requires u in waiters && waiters[u].key in events
      modifies this`waiters
      ensures View() == Register(old(View()), u)
    {
      waiters := waiters[u := waiters[u].(phase := if events[waiters[u].key] then Polling else Blocked(false))];
    }

    /** The `finally` clause. */
    method EndWait(u: nat)
      requires u in waiters
      modifies this
      ensures View() == Leave(old(View()), u)
    {
      var w := waiters[u];
      if w.subtree {
        var remaining := (if w.key in subtreeWaiters then subtreeWaiters[w.key] else 1) - 1;
        if remaining > 0 {
          subtreeWaiters := subtreeWaiters[w.key := remaining];
        } else {
          subtreeWaiters := subtreeWaiters - {w.key};
        }
      }
      waiters := waiters - {u};
    }
  }
}
