/** Each step of the inbox protocol keeps the invariant, and the committed payload evolves. */
module InboxSteps {
  import opened Options
  import opened ChatMessage
  import opened InboxStore
  import opened InboxEvolution
  import opened InboxOps
  import opened InboxMoves
  import opened InboxProtocol
  import opened InboxSafety

  // ------------------------------------------------------------------ the memory of a safe world

  lemma MemLike(w: World, i: nat)
    requires Safe(w) && i < |w.p.mem.messages|
    ensures |w.p.mem.messages| == |w.p.committed.messages|
    ensures var c := w.p.committed.messages[i];
            w.p.mem.messages[i] == c.(attempts := w.p.mem.messages[i].attempts,
              recoveryCheckedAt := w.p.mem.messages[i].recoveryCheckedAt)
    ensures Sound(w.p.mem.messages[i])
  {
    MemInv(w.p);
    assert Durable(w.p.committed.messages[i]) == Durable(w.p.mem.messages[i]);
    DurableMeans(w.p.committed.messages[i], w.p.mem.messages[i]);
  }

  lemma MemAll(w: World)
    requires Safe(w)
    ensures |w.p.mem.messages| == |w.p.committed.messages|
    ensures Stamps(w.p.mem, w.clock) && Fence(w.p.mem, w.front) && PumpsOk(w.p.mem, w.front, w.contacts, w.pumps)
    ensures History(w.p.mem, w) && Inv(w.p.mem)
  {
    MemHistory(w);
    MemInv(w.p);
    DurableKeeps(w.p.committed, w.p.mem, w);
  }

  lemma MemEarlier(w: World, now: int)
    requires Safe(w) && w.clock < now
    ensures Earlier(w.p.mem, now)
  {
    MemAll(w);
  }

  lemma NamedDown(w: World, i: nat)
    requires Safe(w) && i < |w.p.mem.messages|
    ensures Named(w.p.committed.messages, w.p.mem.messages[i].id)
  {
    MemLike(w, i);
    assert w.p.committed.messages[i].id == w.p.mem.messages[i].id;
  }

  lemma SafeIsTyped(w: World)
    requires Safe(w)
    ensures Typed(w)
  {
    MemAll(w);
    forall tab | tab in w.pumps ensures w.pumps[tab].i < |w.p.mem.messages| {
      assert PumpOk(w.p.mem, w.front, w.contacts, tab, w.pumps[tab]);
    }
    forall i | i in w.answers ensures i < |w.p.mem.messages| { assert AnswerOk(w.p.mem, w.contacts, i, w.answers[i]); }
    forall r | r in w.looks ensures w.looks[r].i < |w.p.mem.messages| { assert LookOk(w.p.mem, w.clock, w.looks[r]); }
  }

  // ------------------------------------------------------------------ changing only the tasks

  /** The same process and logs with fewer running tasks. */
  lemma FewerTasks(w: World, v: World)
    requires Safe(w)
    requires v == w.(pumps := v.pumps, answers := v.answers, looks := v.looks, recovery := v.recovery)
    requires forall tab :: tab in v.pumps ==> tab in w.pumps && v.pumps[tab] == w.pumps[tab]
    requires forall i :: i in v.answers ==> i in w.answers && v.answers[i] == w.answers[i]
    requires forall i :: i in v.looks ==> i in w.looks && v.looks[i] == w.looks[i]
    ensures Safe(v)
  {
    hide Coherent, Fence, Stamps, FrontOk, ContactsOk, Named, SightOk;
    forall tab | tab in v.pumps ensures PumpOk(v.p.committed, v.front, v.contacts, tab, v.pumps[tab]) {
      assert PumpOk(w.p.committed, w.front, w.contacts, tab, w.pumps[tab]);
    }
    forall i | i in v.answers ensures AnswerOk(v.p.committed, v.contacts, i, v.answers[i]) {
      assert AnswerOk(w.p.committed, w.contacts, i, w.answers[i]);
    }
    forall i | i in v.looks ensures LookOk(v.p.committed, v.clock, v.looks[i]) {
      assert LookOk(w.p.committed, w.clock, w.looks[i]);
    }
  }

  lemma ClockOn(w: World, now: int)
    requires Safe(w) && w.clock <= now
    ensures Safe(Land(w, w.p, now))
  {
    hide Coherent, Move;
    Stay(w.p, now, None);
    MoveIsSafe(w, w.p, now, None);
    assert Land(w, w.p, now).p == w.p;
  }

  lemma MoreAcks(w: World, r: Reply)
    requires Safe(w) && (r.Receipt? ==> Named(w.p.committed.messages, r.envelope.id))
    ensures Safe(w.(acked := Acked(w, r)))
  {
    hide Coherent, Fence, Stamps, FrontOk, ContactsOk, SightOk, PumpsOk, AnswersOk;
  }

  lemma MoreSightings(w: World, g: set<Sighting>)
    requires Safe(w) && forall x {:trigger Current(w.p.committed, x)} :: x in g ==> Current(w.p.committed, x)
    requires forall x, y :: x in g && y in g ==> x == y
    requires forall x :: x in g && !x.submitted ==> forall y :: y in w.sightings ==> y.i != x.i
    ensures Safe(w.(sightings := w.sightings + g))
  {
    hide Coherent, Fence, Stamps, FrontOk, ContactsOk, PumpsOk, AnswersOk, Named, LookOk;
    var s, all := w.p.committed, w.sightings + g;
    forall x | x in all ensures SightOk(s, x) {
      if x in g { assert Current(s, x); }
    }
    forall i: nat | Submitted(w.sightings, i) ensures Submitted(all, i) {
      var x :| x in w.sightings && x.i == i && x.submitted;
      assert x in all;
    }
    forall x, y | x in all && y in all ensures Agree(x, y) {
      if x in g { assert Current(s, x) && SightOk(s, y); }
      if y in g { assert Current(s, y) && SightOk(s, x); }
      assert x !in g && y !in g ==> Agree(x, y);
    }
  }

  /** Nothing was seen yet of an entry that has only just been added. */
  lemma UnseenYet(w: World, n: nat)
    requires Safe(w) && n >= |w.p.committed.messages|
    ensures forall y :: y in w.sightings ==> y.i != n
  {
    hide Coherent, Fence, Stamps, FrontOk, ContactsOk, PumpsOk, AnswersOk, Named, LookOk;
    forall y | y in w.sightings ensures y.i != n { assert SightOk(w.p.committed, y); }
  }

  /** The steps that are one operation and nothing else. */
  lemma PlainStep(w: World, q: Proc, now: int)
    requires Safe(w) && w.clock <= now && Moves(w.p, q, now, None)
    ensures Safe(Land(w, q, now)) && Onward(w.p, q, None, None)
  {
    MovesAreSafe(w, q, now, None);
  }

  // ------------------------------------------------------------------ admission

  lemma SawOk(s: Store, before: Store, i: nat, tab: string, t: Target, submitted: bool)
    requires t.Found? && i < |s.messages| && s.messages[i].tab == tab
    requires s.epochs == Resolve(before, tab, t).epochs && s.conversations == Resolve(before, tab, t).conversations
    requires s.messages[i].incarnation == Incarnate(Resolve(before, tab, t), tab, t)
    ensures forall g {:trigger Current(s, g)} :: g in Saw(s, i, tab, t, submitted) ==> Current(s, g)
  {
    ResolvePins(before, tab, t);
  }

  lemma SentIsSafe(w: World, tab: string, principal: string, call: Call, id: string, t: Target, limits: Limits,
                   o: Saving, now: int)
    requires Safe(w) && w.clock < now && Fresh(w, id)
    ensures var r := Enqueue(w.p, tab, principal, call, id, t, limits, now, o);
            && Safe(Land(w, r.0, now).(acked := Acked(w, r.1),
                    sightings := if r.1.Receipt? && |r.0.mem.messages| > |w.p.mem.messages|
                                 then w.sightings + Saw(r.0.mem, |w.p.mem.messages|, tab, t, false) else w.sightings))
            && Onward(w.p, r.0, None, None)
  {
    hide Safe, Coherent, Evolves, Remembers, KeepsRest, TakesUp, Move, Moves, Inv, SightOk, Current, Resolve, First,
         MaxSequence, CountBlocking, BlockingBytes, Named;
    var r := Enqueue(w.p, tab, principal, call, id, t, limits, now, o);
    EnqueueMovesSafe(w, tab, principal, call, id, t, limits, now, o);
    var v := Land(w, r.0, now);
    if r.1.Receipt? {
      var m := Resolve(w.p.mem, tab, t);
      ResolveAhead(w.p.mem, tab, t);
      var inc := Incarnate(m, tab, t);
      var k := First(m.messages, ByCall(principal, tab, inc, call.callId));
      if k < |m.messages| {
        NamedDown(v, k);
        MoreAcks(v, r.1);
      } else {
        var e := NewMessage(m, tab, principal, call, id, inc, now);
        var n := |w.p.mem.messages|;
        assert r.0.committed == r.0.mem == Append(m, e);
        assert r.0.mem.messages[n] == e;
        NamedAt(r.0.committed.messages, n);
        MoreAcks(v, r.1);
        SawOk(r.0.mem, w.p.mem, n, tab, t, false);
        NoMemory(w);
        UnseenYet(w, n);
        MoreSightings(v.(acked := Acked(w, r.1)), Saw(r.0.mem, n, tab, t, false));
      }
    }
  }

  lemma NamedAt(ms: seq<Envelope>, i: nat)
    requires i < |ms|
    ensures Named(ms, ms[i].id)
  {
  }

  lemma EnqueueMovesSafe(w: World, tab: string, principal: string, call: Call, id: string, t: Target, limits: Limits,
                         now: int, o: Saving)
    requires Safe(w) && w.clock <= now && Fresh(w, id)
    ensures var q := Enqueue(w.p, tab, principal, call, id, t, limits, now, o).0;
            Safe(Land(w, q, now)) && Onward(w.p, q, None, None)
  {
    hide Coherent, Evolves, Remembers, KeepsRest, TakesUp, Move, Enqueue, First;
    SafeCoherent(w);
    EnqueueMoves(w.p, tab, principal, call, id, t, limits, now, o);
    MoveIsSafe(w, Enqueue(w.p, tab, principal, call, id, t, limits, now, o).0, now, None);
  }

  lemma SafeCoherent(w: World)
    requires Safe(w)
    ensures Coherent(w.p)
  {
  }

  lemma AdmitMovesSafe(w: World, m: Store, e: Envelope, enforceLimit: bool, limits: Limits, now: int, o: Saving)
    requires Safe(w) && w.clock <= now && Ahead(w.p.mem, m) && Admissible(e, now)
    ensures var q := AdmitScheduled(w.p.(mem := m), e, enforceLimit, limits, o).0;
            Safe(Land(w, q, now)) && Onward(w.p, q, None, Entering(w.p, e))
  {
    hide Coherent, Evolves, Remembers, KeepsRest, TakesUp, Move, AdmitScheduled, Safe;
    SafeCoherent(w);
    NoMemory(w);
    var seen := w.p.(mem := m);
    var q, x := AdmitScheduled(seen, e, enforceLimit, limits, o).0, Entering(w.p, e);
    QuietMove(w.p, m, now, x);
    MoveIsSafe(w, seen, now, x);
    SafeCoherent(Land(w, seen, now));
    AdmitMoves(seen, e, enforceLimit, limits, now, o);
    MoveIsSafe(Land(w, seen, now), q, now, x);
    OnwardTrans(w.p, seen, q, x, x);
    if x.Some? {
      EnteringAgrees(seen, e, enforceLimit, limits, o);
      NotStirred(w.p, q, x.value);
    }
  }

  lemma EnteringAgrees(p: Proc, e: Envelope, enforceLimit: bool, limits: Limits, o: Saving)
    requires Coherent(p) && e.Underway()
    ensures FileAgrees(AdmitScheduled(p, e, enforceLimit, limits, o).0, |p.mem.messages|)
  {
    hide Inv, Restore, First, MaxSequence, CountBlocking;
    CommittedInv(p);
    var m := Append(p.mem, e.(sequence := MaxSequence(p.mem.messages) + 1));
    SaveOutcome(p.(mem := m), o);
  }

  lemma AdmittedIsSafe(w: World, item: Envelope, t: Target, enforceLimit: bool, limits: Limits, o: Saving, now: int)
    requires Safe(w) && w.clock < now && Admissible(item, now)
    ensures var (m, e) := ScheduledItem(w, item, t);
            var r := AdmitScheduled(w.p.(mem := m), e, enforceLimit, limits, o);
            && Safe(Land(w, r.0, now).(acked := Acked(w, r.1),
                    sightings := if r.1.Receipt? && |r.0.mem.messages| > |w.p.mem.messages|
                                 then w.sightings + Saw(r.0.mem, |w.p.mem.messages|, item.tab, t, false)
                                      else w.sightings))
            && Onward(w.p, r.0, None, Entering(w.p, item))
  {
    hide Safe, Coherent, Evolves, Remembers, KeepsRest, TakesUp, Move, Moves, Inv, SightOk, Current, Resolve, First,
         MaxSequence, CountBlocking, Ahead, Named;
    var (m, e) := ScheduledItem(w, item, t);
    if t.Found? { ResolveAhead(w.p.mem, item.tab, t); } else { AheadSelf(w.p.mem); }
    var r := AdmitScheduled(w.p.(mem := m), e, enforceLimit, limits, o);
    AdmitMovesSafe(w, m, e, enforceLimit, limits, now, o);
    var v := Land(w, r.0, now);
    if r.1.Receipt? {
      var k := First(m.messages, ById(item.id));
      if k < |m.messages| {
        NamedDown(v, k);
        MoreAcks(v, r.1);
      } else {
        var n := |w.p.mem.messages|;
        assert r.0.committed == r.0.mem == Append(m, r.1.envelope);
        assert r.0.mem.messages[n] == r.1.envelope;
        NamedAt(r.0.committed.messages, n);
        MoreAcks(v, r.1);
        if t.Found? { SawOk(r.0.mem, w.p.mem, n, item.tab, t, false); }
        NoMemory(w);
        UnseenYet(w, n);
        MoreSightings(v.(acked := Acked(w, r.1)), Saw(r.0.mem, n, item.tab, t, false));
      }
    }
  }

  lemma WithdrawIsSafe(w: World, tab: string, id: string, principal: string, o: Saving, now: int)
    requires Safe(w) && Typed(w) && Enabled(w, Withdraw(tab, id, principal, o), now)
    ensures Safe(CallNext(w, Withdraw(tab, id, principal, o), now))
    ensures Onward(w.p, CallNext(w, Withdraw(tab, id, principal, o), now).p, None, None)
  {
    hide Safe, Coherent, Evolves, Remembers, KeepsRest, TakesUp, Move, Moves, Inv, First, Named;
    SafeCoherent(w);
    var r := Cancel(w.p, tab, id, principal, now, o);
    MemEarlier(w, now);
    CancelMoves(w.p, tab, id, principal, now, o);
    MoveIsSafe(w, r.0, now, None);
    if r.1.Receipt? {
      NamedDown(Land(w, r.0, now), First(w.p.mem.messages, ById(id)));
    }
    MoreAcks(Land(w, r.0, now), r.1);
  }

  lemma ClaimedIsSafe(w: World, ref: string, principal: string, call: AnswerCall, callback: Option<(string, string)>,
                      id: string, limits: Limits, o: Saving, now: int)
    requires Safe(w) && w.clock < now && Fresh(w, id)
    ensures var r := ClaimAnswer(w.p, ref, principal, call, callback, id, limits, now, o);
            Safe(Land(w, r.0, now).(acked := Acked(w, r.1))) && Onward(w.p, r.0, None, None)
  {
    hide Safe, Coherent, Evolves, Remembers, KeepsRest, TakesUp, Move, Moves, Inv, First, FirstQuestion, Named,
         MaxSequence, AnswerBlocking, AnswerBytes;
    SafeCoherent(w);
    var r := ClaimAnswer(w.p, ref, principal, call, callback, id, limits, now, o);
    ClaimAnswerMove(w.p, ref, principal, call, callback, id, limits, now, o);
    MoveIsSafe(w, r.0, now, None);
    var v := Land(w, r.0, now);
    if r.1.Receipt? {
      if r.0 == w.p {
        var k := if callback.Some? && callback.value.0 in w.p.mem.receipts
                 then First(w.p.mem.messages, ById(w.p.mem.receipts[callback.value.0].answerId))
                 else First(w.p.mem.messages, AnswerByCall(call.callId));
        NamedDown(v, k);
      } else {
        NamedAt(r.0.committed.messages, |w.p.mem.messages|);
      }
    }
    MoreAcks(v, r.1);
  }

  // ------------------------------------------------------------------ the pump

  /** A pump that holds its tab's lock and has picked entry `i` may dispatch it. */
  lemma PickedIsNext(w: World, tab: string)
    requires Safe(w) && Pick(w.p.mem.messages, tab).Some?
    ensures var i := Pick(w.p.mem.messages, tab).value;
            i < |w.p.mem.messages| && NextInLine(w.p.mem, i, tab) && w.p.mem.messages[i].Blocks()
  {
    var ms := w.p.mem.messages;
    var i := Pick(ms, tab).value;
    MemAll(w);
    assert HeadOf(tab).Hit(ms[i]);
    forall j | 0 <= j < |ms| && ms[j].tab == tab ensures !ms[j].HoldsTab() {
      assert !(HeadOf(tab).Hit(ms[j]) && ms[j].state.InFlight());
    }
    forall j | 0 <= j < i && ms[j].tab == tab && ms[j].kind.Message? ensures !ms[j].Blocks() {
      assert !HeadOf(tab).Hit(ms[j]);
    }
    MemLike(w, i);
    assert !(HeadOf(tab).Hit(ms[i]) && ms[i].state.InFlight());
  }

  lemma NextIsReady(s: Store, i: nat, tab: string)
    requires NextInLine(s, i, tab) && s.messages[i].Blocks()
    ensures Ready(s, i)
  {
    assert !s.messages[i].HoldsTab();
  }

  /** A successful dispatch changes one entry, saves it, and leaves nothing unsaved. */
  lemma DispatchSent(p: Proc, i: nat, t: Target, now: int, bind: Saving, o: Saving)
    requires i < |p.mem.messages| && Dispatch(p, i, t, now, bind, o).1.Sent?
    ensures var r := Dispatch(p, i, t, now, bind, o);
            && r.1.i == i && r.0.mem == r.0.committed == r.0.disk
            && r.0.mem.messages == p.mem.messages[i := r.0.mem.messages[i]]
            && r.0.mem.messages[i].state.Dispatching?
  {
    if t.Found? { ResolveAhead(p.mem, p.mem.messages[i].tab, t); }
  }

  lemma NotYetContacted(w: World, i: nat)
    requires Safe(w) && i < |w.p.mem.messages| && w.p.mem.messages[i].state.Unsent()
    ensures Uncontacted(w.contacts, i)
  {
    MemAll(w);
    MemLike(w, i);
    forall k | 0 <= k < |w.contacts| ensures w.contacts[k].i != i {
      assert ContactOk(w.p.mem, w.front, w.contacts[k]);
    }
  }

  lemma ExemptHead(w: World, i: nat, tab: string)
    requires Safe(w) && tab !in w.pumps && NextInLine(w.p.mem, i, tab) && w.p.mem.messages[i].Blocks()
    ensures ExemptOk(w.p.committed, w, Some(i)) && i < |w.p.committed.messages|
    ensures tab in w.front ==> w.front[tab] <= i
  {
    MemAll(w);
    MemLike(w, i);
  }

  lemma FrontFence(s: Store, before: Store, front: map<string, nat>, i: nat, tab: string)
    requires Fence(s, front) && NextInLine(before, i, tab) && i < |s.messages|
             && s.messages == before.messages[i := s.messages[i]]
    ensures Fence(s, front[tab := i])
  {
  }

  lemma FrontContacts(s: Store, front: map<string, nat>, contacts: seq<Contact>, i: nat, tab: string)
    requires ContactsOk(s, front, contacts) && (tab in front ==> front[tab] <= i)
    ensures ContactsOk(s, front[tab := i], contacts)
  {
    forall k | 0 <= k < |contacts| ensures ContactOk(s, front[tab := i], contacts[k]) {
      assert ContactOk(s, front, contacts[k]);
    }
    forall k, l | 0 <= k < l < |contacts| ensures InOrder(contacts[k], contacts[l]) {
      assert InOrder(contacts[k], contacts[l]);
    }
  }

  /** Moving the front of a tab to the entry just dispatched. */
  lemma FrontMoves(w: World, before: Store, i: nat, tab: string)
    requires Safe(w) && tab !in w.pumps && w.p.mem == w.p.committed == w.p.disk
    requires NextInLine(before, i, tab) && (tab in w.front ==> w.front[tab] <= i)
    requires i < |w.p.mem.messages| && w.p.mem.messages == before.messages[i := w.p.mem.messages[i]]
    requires w.p.mem.messages[i].tab == tab && w.p.mem.messages[i].kind.Message?
    requires Uncontacted(w.contacts, i)
    ensures Safe(w.(pumps := w.pumps[tab := Submits(i, Calling)], front := w.front[tab := i]))
  {
    hide Coherent, Stamps, AnswersOk, Named, SightOk, Fence, ContactsOk, NextInLine, Uncontacted;
    var v := w.(pumps := w.pumps[tab := Submits(i, Calling)], front := w.front[tab := i]);
    var s := w.p.committed;
    FrontFence(s, before, w.front, i, tab);
    FrontContacts(s, w.front, w.contacts, i, tab);
    forall t | t in v.front ensures IsMessageOf(s, v.front[t], t) {
      if t != tab { assert IsMessageOf(s, w.front[t], t); }
    }
    forall t | t in v.pumps ensures PumpOk(s, v.front, v.contacts, t, v.pumps[t]) {
      if t != tab { assert PumpOk(s, w.front, w.contacts, t, w.pumps[t]); }
    }
  }

  lemma DispatchIsSafe(w: World, i: nat, tab: string, t: Target, bind: Saving, o: Saving, now: int)
    requires Safe(w) && w.clock < now && tab !in w.pumps
    requires NextInLine(w.p.mem, i, tab) && w.p.mem.messages[i].Blocks()
    ensures var r := Dispatch(w.p, i, t, now, bind, o);
            && (r.1.Sent? ==> r.1.i == i) && !r.1.Preparing?
            && Safe(PumpLands(w, tab, r, now)) && Onward(w.p, r.0, None, Some(i))
  {
    hide Safe, Coherent, Evolves, Remembers, KeepsRest, TakesUp, Move, Moves, Inv, Ready, Dispatch, ExemptOk,
         Uncontacted;
    var r := Dispatch(w.p, i, t, now, bind, o);
    SafeCoherent(w);
    NextIsReady(w.p.mem, i, tab);
    MemEarlier(w, now);
    DispatchMoves(w.p, i, t, now, bind, o);
    ExemptHead(w, i, tab);
    MovesAreSafe(w, r.0, now, Some(i));
    NotStirred(w.p, r.0, i);
    var v := Land(w, r.0, now);
    DispatchKind(w.p, i, t, now, bind, o);
    if r.1.Sent? {
      DispatchSent(w.p, i, t, now, bind, o);
      ReadyUnsent(w.p.mem, i);
      NotYetContacted(w, i);
      SentKeepsIdentity(w, v, i);
      FrontMoves(v, w.p.mem, i, tab);
    }
  }

  lemma ReadyUnsent(s: Store, i: nat)
    requires Ready(s, i)
    ensures s.messages[i].state.Unsent()
  {
  }

  lemma DispatchKind(p: Proc, i: nat, t: Target, now: int, bind: Saving, o: Saving)
    requires i < |p.mem.messages|
    ensures !Dispatch(p, i, t, now, bind, o).1.Preparing?
  {
  }

  lemma SentKeepsIdentity(w: World, v: World, i: nat)
    requires Safe(w) && i < |w.p.mem.messages| && Evolves(w.p.committed, v.p.committed) && v.p.mem == v.p.committed
    ensures i < |v.p.mem.messages|
    ensures v.p.mem.messages[i].tab == w.p.mem.messages[i].tab && v.p.mem.messages[i].kind == w.p.mem.messages[i].kind
  {
    MemLike(w, i);
    assert Follows(w.p.committed.messages[i], v.p.committed.messages[i]);
  }

  /** A chosen entry is handed to `scheduled_prepare`. */
  lemma PrepareIsSafe(w: World, i: nat, tab: string)
    requires Safe(w) && tab !in w.pumps && Prepared(w.p.mem, w.front, i, tab)
    ensures Safe(w.(pumps := w.pumps[tab := Prepares(i)]))
  {
    hide Coherent, Stamps, Fence, History;
    var s, v := w.p.committed, w.(pumps := w.pumps[tab := Prepares(i)]);
    SameHistory(s, w, v);
    NoMemory(w);
    forall j | 0 <= j < |s.messages|
      ensures s.messages[j].tab == w.p.mem.messages[j].tab && s.messages[j].kind == w.p.mem.messages[j].kind
              && s.messages[j].adopted == w.p.mem.messages[j].adopted
              && s.messages[j].HoldsTab() == w.p.mem.messages[j].HoldsTab()
              && s.messages[j].Blocks() == w.p.mem.messages[j].Blocks()
              && s.messages[j].state == w.p.mem.messages[j].state
              && s.messages[j].started == w.p.mem.messages[j].started
              && s.messages[j].scheduled == w.p.mem.messages[j].scheduled
    {
      MemLike(w, j);
    }
    forall t | t in v.pumps ensures PumpOk(s, v.front, v.contacts, t, v.pumps[t]) {
      if t != tab { assert PumpOk(s, w.front, w.contacts, t, w.pumps[t]); }
    }
  }

  lemma SameHistory(s: Store, w: World, v: World)
    requires History(s, w) && v == w.(pumps := v.pumps, recovery := v.recovery)
    ensures History(s, v)
  {
    hide FrontOk, ContactsOk, AnswersOk, SightOk, Named;
    forall i | i in v.looks ensures LookOk(s, v.clock, v.looks[i]) { assert LookOk(s, w.clock, w.looks[i]); }
  }

  lemma NoMemory(w: World)
    requires Safe(w)
    ensures |w.p.mem.messages| == |w.p.committed.messages|
  {
    MemAll(w);
  }

  lemma PumpRunsIsSafe(w: World, tab: string, prepares: bool, t: Target, bind: Saving, o: Saving, now: int)
    requires Safe(w) && Typed(w) && Enabled(w, PumpRuns(tab, prepares, t, bind, o), now)
    ensures Safe(PumpNext(w, PumpRuns(tab, prepares, t, bind, o), now))
    ensures Onward(w.p, PumpNext(w, PumpRuns(tab, prepares, t, bind, o), now).p, None, Pick(w.p.mem.messages, tab))
  {
    hide Safe, Coherent, Evolves, Remembers, KeepsRest, TakesUp, Move, Moves, Inv, Dispatch, Pick, NextInLine;
    ClockOn(w, now);
    var v := Land(w, w.p, now);
    var pick := Pick(w.p.mem.messages, tab);
    OnwardSelf(w.p, None, pick);
    if !w.p.closing && pick.Some? {
      PickedIsNext(w, tab);
      if w.p.mem.messages[pick.value].scheduled && prepares {
        PickedPrepares(w, tab);
        PrepareIsSafe(v, pick.value, tab);
      } else {
        DispatchIsSafe(w, pick.value, tab, t, bind, o, now);
      }
    }
  }

  lemma PickedPrepares(w: World, tab: string)
    requires Safe(w) && tab !in w.pumps && Pick(w.p.mem.messages, tab).Some?
    ensures var i := Pick(w.p.mem.messages, tab).value;
            i < |w.p.mem.messages| && (w.p.mem.messages[i].scheduled ==> Prepared(w.p.mem, w.front, i, tab))
  {
    hide Pick, NextInLine;
    var i := Pick(w.p.mem.messages, tab).value;
    PickedIsNext(w, tab);
    ExemptHead(w, i, tab);
    NextIsReady(w.p.mem, i, tab);
    MemLike(w, i);
  }

  lemma ResumeIsSafe(w: World, tab: string, reason: string, t: Target, bind: Saving, o: Saving, now: int)
    requires Safe(w) && w.clock < now && tab in w.pumps && w.pumps[tab].Prepares? && w.pumps[tab].i < |w.p.mem.messages|
    ensures Safe(PumpLands(w.(pumps := w.pumps - {tab}), tab,
                           Resume(w.p, w.pumps[tab].i, reason, t, now, bind, o), now))
    ensures Onward(w.p, Resume(w.p, w.pumps[tab].i, reason, t, now, bind, o).0, None, Some(w.pumps[tab].i))
  {
    hide Safe, Coherent, Evolves, Remembers, KeepsRest, TakesUp, Move, Moves, Inv, Dispatch, NextInLine, Ready,
         ExemptOk;
    var i := w.pumps[tab].i;
    var v := w.(pumps := w.pumps - {tab});
    MemPrepared(w, tab);
    FewerTasks(w, v);
    OnwardSelf(w.p, None, Some(i));
    ClockOn(v, now);
    if w.p.mem.messages[i].Blocks() {
      if reason != "" {
        SafeCoherent(w);
        NextIsReady(w.p.mem, i, tab);
        MemEarlier(w, now);
        WaitMove(w.p, i, Text(reason), now, o);
        ExemptHead(v, i, tab);
        MoveIsSafe(v, Change(w.p, i, Waiting, Text(reason), now, o), now, Some(i));
        NotStirred(w.p, Change(w.p, i, Waiting, Text(reason), now, o), i);
      } else {
        DispatchIsSafe(v, i, tab, t, bind, o, now);
      }
    }
  }

  lemma MemPrepared(w: World, tab: string)
    requires Safe(w) && tab in w.pumps && w.pumps[tab].Prepares?
    ensures Prepared(w.p.mem, w.front, w.pumps[tab].i, tab)
  {
    MemAll(w);
    assert PumpOk(w.p.mem, w.front, w.contacts, tab, w.pumps[tab]);
  }

  lemma WaitMove(p: Proc, i: nat, reason: Note, now: int, o: Saving)
    requires Coherent(p) && Ready(p.mem, i) && Earlier(p.mem, now)
    ensures Move(p, Change(p, i, Waiting, reason, now, o), now, Some(i))
    ensures Rest(p.mem, i).None? && FileAgrees(Change(p, i, Waiting, reason, now, o), i)
  {
    hide Inv, Save;
    UnsentNotStarted(p, i);
    NotAtRest(p, i);
    SaveAgrees(p, Replace(p.mem, i, Stamp(p.mem.messages[i], Waiting, reason, now)), o, i);
    ChangeMove(p, i, Waiting, reason, now, o, true);
  }

  // ------------------------------------------------------------------ a preparation that fails its entry

  /** The entry stays prepared while it is failed under its pump. */
  lemma StillPrepared(a: Store, b: Store, front: map<string, nat>, i: nat, tab: string, error: Note,
                      now: int)
    requires Prepared(a, front, i, tab)
    requires b.messages == a.messages[i := Stamp(a.messages[i], Failed, error, now)]
    ensures Prepared(b, front, i, tab)
  {
  }

  lemma PreparedAhead(a: Store, b: Store, front: map<string, nat>, i: nat, tab: string)
    requires Prepared(a, front, i, tab) && Ahead(b, a)
    ensures Prepared(b, front, i, tab)
  {
    forall j | 0 <= j < |a.messages|
      ensures a.messages[j] == b.messages[j].(attempts := a.messages[j].attempts,
                                              recoveryCheckedAt := a.messages[j].recoveryCheckedAt)
    {
      assert Durable(a.messages[j]) == Durable(b.messages[j]);
      DurableMeans(b.messages[j], a.messages[j]);
    }
  }

  lemma FailPrepared(p: Proc, front: map<string, nat>, i: nat, tab: string, text: string, now: int, o: Saving)
    requires Coherent(p) && Earlier(p.mem, now) && Prepared(p.mem, front, i, tab)
    ensures var q := Change(p, i, Failed, Text(text), now, o);
            && Move(p, q, now, Some(i)) && Prepared(q.mem, front, i, tab)
            && !UnderwayAt(q.mem, i)
  {
    hide Inv, Restore, Move;
    UnsentNotStarted(p, i);
    ChangeMove(p, i, Failed, Text(text), now, o, true);
    CommittedInv(p);
    if !p.closing {
      var m := Replace(p.mem, i, Stamp(p.mem.messages[i], Failed, Text(text), now));
      SaveOutcome(p.(mem := m), o);
      StillPrepared(p.mem, m, front, i, tab, Text(text), now);
      PreparedAhead(p.mem, p.committed, front, i, tab);
    }
  }

  lemma ExemptPrepared(w: World, tab: string)
    requires Safe(w) && tab in w.pumps && w.pumps[tab].Prepares?
    ensures var i := w.pumps[tab].i;
            i < |w.p.committed.messages| && ExemptOk(w.p.committed, w.(pumps := w.pumps - {tab}), Some(i))
  {
    MemPrepared(w, tab);
    MemAll(w);
    MemLike(w, w.pumps[tab].i);
  }

  lemma PrepareFailsIsSafe(w: World, tab: string, text: string, o: Saving, now: int)
    requires Safe(w) && Typed(w) && Enabled(w, PrepareFails(tab, text, o), now)
    ensures Safe(PumpNext(w, PrepareFails(tab, text, o), now))
    ensures Onward(w.p, PumpNext(w, PrepareFails(tab, text, o), now).p, Some(w.pumps[tab].i), None)
  {
    hide Safe, Coherent, Evolves, Remembers, KeepsRest, TakesUp, Move, Moves, Inv, Change, Prepared, ExemptOk, Earlier;
    var i, v := w.pumps[tab].i, w.(pumps := w.pumps - {tab});
    var q := Change(w.p, i, Failed, Text(text), now, o);
    SafeCoherent(w);
    MemEarlier(w, now);
    MemPrepared(w, tab);
    FewerTasks(w, v);
    ExemptPrepared(w, tab);
    FailPrepared(w.p, w.front, i, tab, text, now, o);
    MoveIsSafe(v, q, now, Some(i));
    NotTakenUp(w.p, q, Some(i), i);
    PrepareIsSafe(Land(v, q, now), i, tab);
    assert Land(v, q, now).(pumps := v.pumps[tab := Prepares(i)]) == Land(w, q, now) by {
      assert v.pumps[tab := Prepares(i)] == w.pumps;
    }
  }

  lemma Submitting(w: World, tab: string)
    requires Safe(w) && tab in w.pumps && w.pumps[tab].Submits?
    ensures PumpOk(w.p.mem, w.front, w.contacts, tab, w.pumps[tab])
    ensures PumpOk(w.p.committed, w.front, w.contacts, tab, w.pumps[tab])
  {
    MemAll(w);
  }

  /** The callback returned: its mark is in the memory, the committed payload and the file. */
  lemma CallbackSaved(p: Proc, i: nat, t: Target, o: Saving)
    requires i < |p.mem.messages| && BeforeDelivery(p, i, t, o).1
    ensures var q := BeforeDelivery(p, i, t, o).0;
            && q.mem == q.committed == q.disk
            && q.mem.messages == p.mem.messages[i := p.mem.messages[i].(started := true)]
            && (p.mem.messages[i].kind.Message? ==>
                  && t.Found?
                  && q.mem.epochs == Resolve(p.mem, p.mem.messages[i].tab, t).epochs
                  && q.mem.conversations == Resolve(p.mem, p.mem.messages[i].tab, t).conversations
                  && p.mem.messages[i].incarnation ==
                     Incarnate(Resolve(p.mem, p.mem.messages[i].tab, t), p.mem.messages[i].tab, t))
  {
    if t.Found? { ResolveAhead(p.mem, p.mem.messages[i].tab, t); }
  }

  lemma SawIt(before: set<Sighting>, s: Store, i: nat, tab: string, t: Target)
    requires t.Found?
    ensures Submitted(before + Saw(s, i, tab, t, true), i)
  {
    var g := Sighting(i, (tab, t.base), s.Epoch((tab, t.base)), t.conversation, true);
    assert g in before + Saw(s, i, tab, t, true);
  }

  lemma PhaseMoves(w: World, tab: string, phase: Phase)
    requires Safe(w) && tab in w.pumps && w.pumps[tab].Submits?
    requires !phase.Calling? ==> Submitted(w.sightings, w.pumps[tab].i)
    requires PumpOk(w.p.committed, w.front, w.contacts, tab, Submits(w.pumps[tab].i, phase))
    ensures Safe(w.(pumps := w.pumps[tab := Submits(w.pumps[tab].i, phase)]))
  {
    hide Coherent, Stamps, Fence, History;
    var s, v := w.p.committed, w.(pumps := w.pumps[tab := Submits(w.pumps[tab].i, phase)]);
    SameHistory(s, w, v);
    forall t | t in v.pumps ensures PumpOk(s, v.front, v.contacts, t, v.pumps[t]) {
      if t != tab { assert PumpOk(s, w.front, w.contacts, t, w.pumps[t]); }
    }
  }

  lemma CallbackIsSafe(w: World, tab: string, t: Target, o: Saving, now: int)
    requires Safe(w) && Typed(w) && Enabled(w, Callback(tab, t, o), now)
    ensures Safe(PumpNext(w, Callback(tab, t, o), now))
    ensures Onward(w.p, PumpNext(w, Callback(tab, t, o), now).p, None, None)
  {
    hide Safe, Coherent, Evolves, Remembers, KeepsRest, TakesUp, Move, Moves, Inv, BeforeDelivery, Resolve, SightOk,
         Current, Uncontacted;
    var i := w.pumps[tab].i;
    SafeCoherent(w);
    Submitting(w, tab);
    BeforeDeliveryMove(w.p, i, t, now, o);
    var r := BeforeDelivery(w.p, i, t, o);
    MoveIsSafe(w, r.0, now, None);
    var v := Land(w, r.0, now);
    if r.1 {
      CallbackSaved(w.p, i, t, o);
      Submitting(v, tab);
      SawOk(r.0.mem, w.p.mem, i, tab, t, true);
      MoreSightings(v, Saw(r.0.mem, i, tab, t, true));
      SawIt(v.sightings, r.0.mem, i, tab, t);
      PhaseMoves(v.(sightings := v.sightings + Saw(r.0.mem, i, tab, t, true)), tab, Cleared);
    }
  }

  /** One more contact, of an entry never contacted before, at the front of its tab if it is a message. */
  lemma NewContact(w: World, c: Contact)
    requires Safe(w) && Uncontacted(w.contacts, c.i) && ContactOk(w.p.committed, w.front, c)
    requires c.kind.Message? ==> w.front[c.tab] == c.i
    requires forall tab :: tab in w.pumps && w.pumps[tab].Submits? && w.pumps[tab].i == c.i ==>
             w.pumps[tab].phase.Reached?
    requires c.i in w.answers ==> w.answers[c.i].Reached?
    requires c.kind.Message? ==> Submitted(w.sightings, c.i)
    ensures Safe(w.(contacts := w.contacts + [c]))
  {
    hide Coherent, Stamps, Fence, Named, SightOk;
    var s, v := w.p.committed, w.(contacts := w.contacts + [c]);
    forall k | 0 <= k < |v.contacts| ensures ContactOk(s, v.front, v.contacts[k]) {
      if k < |w.contacts| { assert ContactOk(s, w.front, w.contacts[k]); }
    }
    forall k, l | 0 <= k < l < |v.contacts| ensures InOrder(v.contacts[k], v.contacts[l]) {
      if l < |w.contacts| {
        assert InOrder(w.contacts[k], w.contacts[l]);
      } else {
        assert ContactOk(s, w.front, w.contacts[k]);
      }
    }
    forall t | t in v.pumps ensures PumpOk(s, v.front, v.contacts, t, v.pumps[t]) {
      assert PumpOk(s, w.front, w.contacts, t, w.pumps[t]);
    }
    forall i | i in v.answers ensures AnswerOk(s, v.contacts, i, v.answers[i]) {
      assert AnswerOk(s, w.contacts, i, w.answers[i]);
    }
    forall i | i in v.looks ensures LookOk(s, v.clock, v.looks[i]) { assert LookOk(s, w.clock, w.looks[i]); }
  }

  lemma ReachIsSafe(w: World, tab: string, now: int)
    requires Safe(w) && Typed(w) && Enabled(w, ReachProvider(tab), now)
    ensures Safe(PumpNext(w, ReachProvider(tab), now))
    ensures Onward(w.p, PumpNext(w, ReachProvider(tab), now).p, None, None)
  {
    hide Coherent, Evolves, Remembers, KeepsRest, TakesUp, Stamps, Fence, History, Inv;
    var i := w.pumps[tab].i;
    OnwardSelf(w.p, None, None);
    ClockOn(w, now);
    var v := Land(w, w.p, now);
    Submitting(v, tab);
    PhaseMoves(v, tab, Reached);
    var u := v.(pumps := w.pumps[tab := Submits(i, Reached)]);
    ContactPre(u, tab);
    NewContact(u, Contact(i, tab, Message));
  }

  lemma ContactPre(w: World, tab: string)
    requires Safe(w) && tab in w.pumps && w.pumps[tab] == Submits(w.pumps[tab].i, Reached)
    requires w.pumps[tab].i < |w.p.committed.messages|
    ensures forall t :: t in w.pumps && w.pumps[t].Submits? && w.pumps[t].i == w.pumps[tab].i ==> t == tab
    ensures w.pumps[tab].i !in w.answers
  {
    assert PumpOk(w.p.committed, w.front, w.contacts, tab, w.pumps[tab]);
    forall t | t in w.pumps && w.pumps[t].Submits? && w.pumps[t].i == w.pumps[tab].i ensures t == tab {
      assert PumpOk(w.p.committed, w.front, w.contacts, t, w.pumps[t]);
    }
    assert w.pumps[tab].i in w.answers ==>
           AnswerOk(w.p.committed, w.contacts, w.pumps[tab].i, w.answers[w.pumps[tab].i]);
  }

  lemma SubmitEnds(w: World, tab: string)
    requires Safe(w) && tab in w.pumps && w.pumps[tab].Submits?
    ensures var i := w.pumps[tab].i; var v := w.(pumps := w.pumps - {tab});
            && Safe(v) && i < |w.p.mem.messages| == |w.p.committed.messages| && w.p.mem.messages[i].kind.Message?
            && ExemptOk(w.p.committed, v, Some(i))
  {
    var v := w.(pumps := w.pumps - {tab});
    Submitting(w, tab);
    MemAll(w);
    FewerTasks(w, v);
  }

  lemma SubmitFailsIsSafe(w: World, tab: string, f: Failure, o: Saving, now: int)
    requires Safe(w) && Typed(w) && Enabled(w, SubmitFails(tab, f, o), now)
    ensures Safe(PumpNext(w, SubmitFails(tab, f, o), now))
    ensures Onward(w.p, PumpNext(w, SubmitFails(tab, f, o), now).p, Some(w.pumps[tab].i), None)
  {
    hide Safe, Coherent, Evolves, Remembers, KeepsRest, TakesUp, Move, Moves, Inv, SubmitFailed, ExemptOk;
    var i, v := w.pumps[tab].i, w.(pumps := w.pumps - {tab});
    SafeCoherent(w);
    SubmitEnds(w, tab);
    MemEarlier(w, now);
    SubmitFailedMove(w.p, i, f, now, o);
    MoveIsSafe(v, SubmitFailed(w.p, i, f, now, o), now, Some(i));
    HandlerTakesNone(w.p, i, f, now, o);
    NotTakenUp(w.p, SubmitFailed(w.p, i, f, now, o), Some(i), i);
  }

  lemma HandlerTakesNone(p: Proc, i: nat, f: Failure, now: int, o: Saving)
    requires Coherent(p) && i < |p.mem.messages|
    ensures UnderwayAt(SubmitFailed(p, i, f, now, o).mem, i) ==> UnderwayAt(p.mem, i)
  {
    hide Inv, Evolves, Restore;
    CommittedInv(p);
    AheadRest(p.committed, p.mem);
    UnsentNotStarted(p, i);
    var live := p.mem.messages[i];
    var (attempts, state, reason) := AfterFailure(live, f);
    var m := Replace(p.mem, i, live.(attempts := attempts));
    SaveOutcome(p.(mem := Replace(m, i, Stamp(m.messages[i], state, reason, now))), o);
  }

  lemma SubmitReturnsIsSafe(w: World, tab: string, o: Saving, now: int)
    requires Safe(w) && Typed(w) && Enabled(w, SubmitReturns(tab, o), now)
    ensures Safe(PumpNext(w, SubmitReturns(tab, o), now))
    ensures Onward(w.p, PumpNext(w, SubmitReturns(tab, o), now).p, None, None)
  {
    hide Safe, Coherent, Evolves, Remembers, KeepsRest, TakesUp, Move, Moves, Inv, SubmitReturned;
    var i, v := w.pumps[tab].i, w.(pumps := w.pumps - {tab});
    SafeCoherent(w);
    SubmitEnds(w, tab);
    MemEarlier(w, now);
    SubmitReturnedMove(w.p, i, now, o);
    MoveIsSafe(v, SubmitReturned(w.p, i, now, o), now, None);
  }

  // ------------------------------------------------------------------ answers

  lemma Answering(w: World, i: nat)
    requires Safe(w) && i in w.answers
    ensures AnswerOk(w.p.mem, w.contacts, i, w.answers[i]) && AnswerOk(w.p.committed, w.contacts, i, w.answers[i])
  {
    MemAll(w);
  }

  lemma AnswerPhase(w: World, i: nat, phase: Phase)
    requires Safe(w) && AnswerOk(w.p.committed, w.contacts, i, phase)
    ensures Safe(w.(answers := w.answers[i := phase]))
  {
    hide Coherent, Stamps, Fence, PumpsOk, FrontOk, ContactsOk, SightOk, Named;
    var s, v := w.p.committed, w.(answers := w.answers[i := phase]);
    forall j | j in v.answers ensures AnswerOk(s, v.contacts, j, v.answers[j]) {
      if j != i { assert AnswerOk(s, w.contacts, j, w.answers[j]); }
    }
    forall j | j in v.looks ensures LookOk(s, v.clock, v.looks[j]) { assert LookOk(s, w.clock, w.looks[j]); }
  }

  lemma AnswerBeginsIsSafe(w: World, i: nat, o: Saving, now: int)
    requires Safe(w) && Typed(w) && Enabled(w, AnswerBegins(i, o), now)
    ensures Safe(AnswerNext(w, AnswerBegins(i, o), now))
    ensures Onward(w.p, AnswerNext(w, AnswerBegins(i, o), now).p, None, None)
  {
    hide Safe, Coherent, Evolves, Remembers, KeepsRest, TakesUp, Move, Moves, Inv, AnswerBegin;
    SafeCoherent(w);
    var r := AnswerBegin(w.p, i, now, o);
    MemEarlier(w, now);
    AnswerBeginMove(w.p, i, now, o);
    MoveIsSafe(w, r.0, now, None);
    if r.1 {
      AnswerBegun(w.p, i, now, o);
      NotYetContacted(w, i);
      NoMemory(w);
      AnswerKind(w, r.0, i);
      AnswerPhase(Land(w, r.0, now), i, Calling);
    }
  }

  lemma AnswerBegun(p: Proc, i: nat, now: int, o: Saving)
    requires i < |p.mem.messages| && AnswerBegin(p, i, now, o).1
    ensures p.mem.messages[i].state.Unsent()
  {
  }

  lemma AnswerKind(w: World, q: Proc, i: nat)
    requires Safe(w) && i < |w.p.mem.messages| && Evolves(w.p.committed, q.committed)
    ensures i < |q.committed.messages| && q.committed.messages[i].kind == w.p.mem.messages[i].kind
  {
    MemLike(w, i);
    assert Follows(w.p.committed.messages[i], q.committed.messages[i]);
  }

  lemma AnswerCallbackIsSafe(w: World, i: nat, o: Saving, now: int)
    requires Safe(w) && Typed(w) && Enabled(w, AnswerCallback(i, o), now)
    ensures Safe(AnswerNext(w, AnswerCallback(i, o), now))
    ensures Onward(w.p, AnswerNext(w, AnswerCallback(i, o), now).p, None, None)
  {
    hide Safe, Coherent, Evolves, Remembers, KeepsRest, TakesUp, Move, Moves, Inv, BeforeDelivery, Uncontacted;
    SafeCoherent(w);
    Answering(w, i);
    var t := NoTarget(0, "");
    var r := BeforeDelivery(w.p, i, t, o);
    BeforeDeliveryMove(w.p, i, t, now, o);
    MoveIsSafe(w, r.0, now, None);
    if r.1 {
      CallbackSaved(w.p, i, t, o);
      AnswerPhase(Land(w, r.0, now), i, Cleared);
    }
  }

  /** The provider of an answer is reached. */
  function Answered(w: World, i: nat, now: int): World
    requires i < |w.p.mem.messages|
  {
    Land(w, w.p, now).(answers := w.answers[i := Reached],
                       contacts := w.contacts + [Contact(i, w.p.mem.messages[i].tab, QuestionAnswer)])
  }

  lemma AnsweredIsSafe(w: World, i: nat, now: int)
    requires Safe(w) && w.clock <= now && i in w.answers && w.answers[i].Cleared? && i < |w.p.mem.messages|
    ensures Safe(Answered(w, i, now))
  {
    hide Coherent, Evolves, Stamps, Fence, History, Inv;
    ClockOn(w, now);
    var v := Land(w, w.p, now);
    Answering(v, i);
    AnswerPhase(v, i, Reached);
    var u := v.(answers := w.answers[i := Reached]);
    MemLike(w, i);
    forall tab | tab in u.pumps && u.pumps[tab].Submits? ensures u.pumps[tab].i != i {
      assert PumpOk(u.p.committed, u.front, u.contacts, tab, u.pumps[tab]);
    }
    NewContact(u, Contact(i, w.p.mem.messages[i].tab, QuestionAnswer));
  }

  lemma AnswerEndsIsSafe(w: World, i: nat, outcome: AnswerOutcome, o: Saving, o2: Saving, now: int)
    requires Safe(w) && Typed(w) && Enabled(w, AnswerEnds(i, outcome, o, o2), now)
    ensures Safe(AnswerNext(w, AnswerEnds(i, outcome, o, o2), now))
    ensures Onward(w.p, AnswerNext(w, AnswerEnds(i, outcome, o, o2), now).p, None, None)
  {
    hide Safe, Coherent, Evolves, Remembers, KeepsRest, TakesUp, Move, Moves, Inv, AnswerEnd;
    var v := w.(answers := w.answers - {i});
    SafeCoherent(w);
    Answering(w, i);
    FewerTasks(w, v);
    MemEarlier(w, now);
    AnswerEndMoves(w.p, i, outcome, now, o, o2);
    PlainStep(v, AnswerEnd(w.p, i, outcome, now, o, o2), now);
  }

  // ------------------------------------------------------------------ reconciliation and surroundings

  lemma NewLook(w: World, r: nat, read: Read)
    requires Safe(w) && LookOk(w.p.committed, w.clock, read)
    ensures Safe(w.(looks := w.looks[r := read]))
  {
    hide Coherent, Stamps, Fence, PumpsOk, FrontOk, ContactsOk, SightOk, Named, AnswersOk;
    var s, v := w.p.committed, w.(looks := w.looks[r := read]);
    forall j | j in v.looks ensures LookOk(s, v.clock, v.looks[j]) {
      if j != r { assert LookOk(s, w.clock, w.looks[j]); }
    }
  }

  lemma ReadBegunIsSafe(w: World, r: nat, i: nat, current: int, now: int)
    requires Safe(w) && w.clock < now && i < |w.p.mem.messages|
             && ReadsEvidence(w.p.mem.messages[i], i in w.recovery, current)
    ensures var e, q := w.p.mem.messages[i], MarkRead(w.p, i, i in w.recovery, current);
            && Safe(Land(w, q, now).(looks := w.looks[r := Read(i, (e.state, e.updatedAt), i in w.recovery, now)]))
            && Onward(w.p, q, None, None)
  {
    hide Coherent, Evolves, Remembers, KeepsRest, TakesUp, Move, Moves, Inv, MarkRead, Fence, PumpsOk, History, Safe;
    var e, q := w.p.mem.messages[i], MarkRead(w.p, i, i in w.recovery, current);
    MarkReadMove(w.p, i, i in w.recovery, current, now);
    MoveIsSafe(w, q, now, None);
    MemLike(w, i);
    MemAll(w);
    AnswerKind(w, q, i);
    LookHolds(w, q, i, current, now);
    NewLook(Land(w, q, now), r, Read(i, (e.state, e.updatedAt), i in w.recovery, now));
  }

  lemma LookHolds(w: World, q: Proc, i: nat, current: int, now: int)
    requires Safe(w) && i < |w.p.mem.messages| && Evolves(w.p.committed, q.committed) && w.clock <= now
    requires ReadsEvidence(w.p.mem.messages[i], i in w.recovery, current)
    ensures var e := w.p.mem.messages[i];
            LookOk(q.committed, now, Read(i, (e.state, e.updatedAt), i in w.recovery, now))
  {
    MemLike(w, i);
    MemAll(w);
    assert Follows(w.p.committed.messages[i], q.committed.messages[i]);
  }

  lemma VerdictIsSafe(w: World, r: nat, proof: Proof, liveness: Liveness, restarting: bool, o: Saving,
                      recovery: set<nat>, now: int)
    requires Safe(w) && w.clock < now && r in w.looks && w.looks[r].i < |w.p.mem.messages|
    ensures var q := CommitProof(w.p, w.looks[r].i, w.looks[r].seen, proof, liveness, restarting, now, o);
            Safe(Land(w, q, now).(looks := w.looks - {r}, recovery := recovery)) && Onward(w.p, q, None, None)
  {
    hide Coherent, Evolves, Remembers, KeepsRest, TakesUp, Move, Moves, Inv, CommitProof, Fence, PumpsOk, Safe, SightOk,
         ContactsOk, AnswersOk, FrontOk, Named, Stamps;
    SafeCoherent(w);
    MemAll(w);
    assert LookOk(w.p.mem, w.clock, w.looks[r]);
    MemEarlier(w, now);
    CommitProofMove(w.p, w.looks[r].i, w.looks[r].seen, proof, liveness, restarting, now, o);
    var v := w.(looks := w.looks - {r}, recovery := recovery);
    FewerTasks(w, v);
    MoveIsSafe(v, CommitProof(w.p, w.looks[r].i, w.looks[r].seen, proof, liveness, restarting, now, o), now, None);
  }

  lemma FlushMove(p: Proc, now: int, o: Saving)
    requires Coherent(p) && forall j | 0 <= j < |p.mem.messages| :: p.mem.messages[j].updatedAt <= now
    ensures Move(p, Save(p, o), now, None)
  {
    MemInv(p);
    EvolvesSelf(p.mem);
    assert Saves(p, p.mem, Save(p, o), now, None, o);
  }

  lemma NoncesMove(p: Proc, nonces: map<string, NonceRecord>, saves: bool, now: int, o: Saving)
    requires Coherent(p) && NoncesIntact(nonces)
    requires saves ==> forall j | 0 <= j < |p.mem.messages| :: p.mem.messages[j].updatedAt <= now
    ensures var q := p.(mem := p.mem.(nonces := nonces)); Move(p, if saves then Save(q, o) else q, now, None)
  {
    hide Inv, Save, NoncesIntact, Legal;
    var m := p.mem.(nonces := nonces);
    NoncesAhead(p.mem, nonces);
    if saves {
      MemInv(p);
      AheadInv(p.mem, m);
      EvolvesSelf(m);
      StillLegal(m, now);
      ObserveThenSave(p, m, m, now, None, o);
    } else {
      QuietMove(p, m, now, None);
    }
  }

  lemma NoncesAhead(s: Store, nonces: map<string, NonceRecord>)
    requires NoncesIntact(nonces)
    ensures Ahead(s, s.(nonces := nonces))
  {
  }

  lemma StillLegal(s: Store, now: int)
    requires Inv(s) && forall j | 0 <= j < |s.messages| :: s.messages[j].updatedAt <= now
    ensures Legal(s, s, now, None)
  {
    hide Inv;
    EvolvesSelf(s);
  }

  lemma ObserveMove(p: Proc, tab: string, t: Target, now: int)
    requires t.Found?
    ensures Moves(p, p.(mem := Resolve(p.mem, tab, t)), now, None)
  {
    hide Move, Moves, Resolve;
    ResolveAhead(p.mem, tab, t);
    QuietMove(p, Resolve(p.mem, tab, t), now, None);
    OneMove(p, p.(mem := Resolve(p.mem, tab, t)), now, None);
  }

  lemma AskMove(p: Proc, q: Question, o: Saving, now: int)
    requires Coherent(p) && q.state.Open? && q.answerId.None?
             && FirstQuestion(p.mem.questions, q.ref) == |p.mem.questions|
    ensures Moves(p, Save(p.(mem := AddQuestion(p.mem, q)), o), now, None)
  {
    hide Move, Moves, Coherent, Inv, Legal, Ahead, FirstQuestion, Save;
    MemInv(p);
    AddQuestionLegal(p.mem, q, now);
    AheadSelf(p.mem);
    ObserveThenSave(p, p.mem, AddQuestion(p.mem, q), now, None, o);
    OneMove(p, Save(p.(mem := AddQuestion(p.mem, q)), o), now, None);
  }

  lemma SurroundingMoves(w: World, s: Step, now: int)
    requires Safe(w) && Setting(w, s, now) && !s.Stop?
    ensures Moves(w.p, AroundProc(w, s, now), now, None)
  {
    hide Safe, Coherent, Evolves, Remembers, KeepsRest, TakesUp, Move, Moves, Inv, Save, First, FirstQuestion, Ahead,
         Legal, ExpirePass, RecoverAnswer, SetState, TurnCompleted, CancelScheduled, Resolve, Enqueue, AdmitScheduled,
         Cancel, ClaimAnswer, PumpTurn, Resume, BeforeDelivery, SubmitFailed, SubmitReturned, AnswerBegin, AnswerEnd,
         CommitProof, MarkRead, PumpLands, Saw, ScheduledItem, Admissible;
    SafeCoherent(w);
    MemEarlier(w, now);
    var q := AroundProc(w, s, now);
    Stay(w.p, now, None);
    match s
    case WithdrawScheduled(id, release, o) =>
      CancelScheduledMoves(w.p, id, release, now, o);
      OneMove(w.p, q, now, None);
    case TurnEnds(tab, turn, status, o) =>
      TurnCompletedMoves(w.p, tab, turn, status, now, o);
      OneMove(w.p, q, now, None);
    case AnswerRecovered(i, o, o2) => RecoverAnswerMoves(w.p, i, now, o, o2);
    case Expiry(o) => ExpirePassMove(w.p, now, o); OneMove(w.p, q, now, None);
    case Observe(tab, t) => if t.Found? { ObserveMove(w.p, tab, t, now); } else { OneMove(w.p, q, now, None); }
    case Flush(o) => MemStamps(w); FlushMove(w.p, now, o); OneMove(w.p, q, now, None);
    case Nonces(nonces, saves, o) =>
      if saves { MemStamps(w); }
      NoncesMove(w.p, nonces, saves, now, o);
      OneMove(w.p, q, now, None);
    case Ask(question, o) => AskMove(w.p, question, o, now);
    case Settle(ref, state, o) => QuestionStateMove(w.p, ref, state, now, o); OneMove(w.p, q, now, None);
    case _ => OneMove(w.p, q, now, None);
  }

  lemma MemStamps(w: World)
    requires Safe(w)
    ensures forall j | 0 <= j < |w.p.mem.messages| :: w.p.mem.messages[j].updatedAt <= w.clock
  {
    MemAll(w);
  }

  lemma StopIsSafe(w: World, now: int)
    requires Safe(w) && w.clock <= now
    ensures Safe(Land(w, w.p.(closing := true), now)) && Onward(w.p, w.p.(closing := true), None, None)
  {
    hide Evolves;
    ClockOn(w, now);
    EvolvesSelf(w.p.committed);
  }

  /** Which of the groups a step belongs to decides what it does. */
  lemma NextIs(w: World, s: Step, now: int)
    requires Typed(w) && Enabled(w, s, now)
    ensures OfPumps(s) ==> Next(w, s, now) == PumpNext(w, s, now)
    ensures OfReads(s) ==> Next(w, s, now) == ReadNext(w, s, now)
    ensures Surrounding(s) ==> Next(w, s, now) == Around(w, s, now)
  {
    hide Enabled, Typed, Around, CallNext, PumpNext, AnswerNext, ReadNext, Surrounding;
    GroupsApart(s);
  }

  lemma GroupsApart(s: Step)
    ensures OfPumps(s) ==> !OfCalls(s)
    ensures OfReads(s) ==> !OfCalls(s) && !OfPumps(s) && !OfAnswers(s)
    ensures Surrounding(s) ==> !OfCalls(s) && !OfPumps(s) && !OfAnswers(s) && !OfReads(s) && !s.StartEnds? && !s.Crash?
  {
  }

  lemma SettingIsEnabled(w: World, s: Step, now: int)
    requires Enabled(w, s, now) && Surrounding(s)
    ensures Setting(w, s, now)
  {
  }

  ghost predicate Setting(w: World, s: Step, now: int) {
    && w.clock < now && Surrounding(s)
    && (s.AnswerRecovered? ==> s.i < |w.p.mem.messages|)
    && (s.Ask? ==>
          s.q.state.Open? && s.q.answerId.None?
          && FirstQuestion(w.p.mem.questions, s.q.ref) == |w.p.mem.questions|)
    && (s.Settle? ==> s.state.Stale? || s.state.Resolved?)
    && (s.Nonces? ==> NoncesIntact(s.nonces))
  }

  lemma AroundIsSafe(w: World, s: Step, now: int)
    requires Safe(w) && Setting(w, s, now)
    ensures Safe(Around(w, s, now)) && Onward(w.p, Around(w, s, now).p, None, None)
  {
    hide Safe, Coherent, Evolves, Remembers, KeepsRest, TakesUp, Move, Moves, Inv, AroundProc, Recovery;
    OnwardSelf(w.p, None, None);
    var v := Around(w, s, now);
    if s.Stop? {
      StopIsSafe(w, now);
      StopAround(w, now);
    } else {
      SurroundingMoves(w, s, now);
      var u := w.(pumps := v.pumps, answers := v.answers, looks := v.looks, recovery := v.recovery);
      FewerTasks(w, u);
      PlainStep(u, v.p, now);
    }
  }

  lemma StopAround(w: World, now: int)
    ensures Around(w, Stop, now) == Land(w, w.p.(closing := true), now)
  {
  }

  /** The world of the process that reads the file next. */
  function Rebooted(w: World, now: int): World {
    World(Proc(w.p.disk, w.p.disk, w.p.disk, false), now, {}, map[], map[], map[],
          w.front, w.contacts, w.sightings, w.acked, false, w.resets + 1)
  }

  lemma RebootedIsSafe(w: World, now: int)
    requires Safe(w) && w.clock <= now
    ensures Safe(Rebooted(w, now))
  {
    hide Evolves, Fence, FrontOk, ContactsOk, SightOk, Named, AnswersOk, Inv;
    EvolvesKeepsHistory(w.p.committed, w.p.disk, w);
    EvolvesSelf(w.p.disk);
    AheadSelf(w.p.disk);
    NoAnswers(w.p.disk, w.contacts);
  }

  lemma DiskParts(w: World)
    requires Safe(w)
    ensures Inv(w.p.disk) && Evolves(w.p.committed, w.p.disk)
  {
  }

  lemma CrashIsSafe(w: World, now: int)
    requires Safe(w) && Typed(w) && Enabled(w, Crash, now)
    ensures Next(w, Crash, now) == Rebooted(w, now)
    ensures Safe(Next(w, Crash, now)) && Evolves(w.p.committed, Next(w, Crash, now).p.committed)
  {
    hide Safe, Evolves, Inv, Restore, Typed;
    DiskParts(w);
    RestoreAcceptsExactlyWellFormedAt(w.p.disk);
    RebootedIsSafe(w, now);
  }

  lemma RestoreAcceptsExactlyWellFormedAt(s: Store)
    requires Inv(s)
    ensures Restore(Dump(s)) == Loaded(s)
  {
    RestoreAcceptsExactlyWellFormed(s);
  }

  lemma NoAnswers(s: Store, contacts: seq<Contact>)
    ensures AnswersOk(s, contacts, map[])
  {
  }

  function Opened(w: World, now: int): World {
    Land(w, w.p.(closing := false), now).(up := true, resets := w.resets + 1)
  }

  lemma OpenedIsSafe(w: World, now: int)
    requires Safe(w) && w.clock <= now
    ensures Safe(Opened(w, now))
  {
    hide Evolves, Fence, PumpsOk, ContactsOk, AnswersOk, FrontOk, SightOk, Named;
    ClockOn(w, now);
  }

  /** The end of `start` opens the inbox again, whatever was saved or not saved before. */
  lemma StartEndsIsSafe(w: World, now: int)
    requires Safe(w) && Typed(w) && Enabled(w, StartEnds, now)
    ensures Next(w, StartEnds, now) == Opened(w, now)
    ensures Safe(Next(w, StartEnds, now)) && Evolves(w.p.committed, Next(w, StartEnds, now).p.committed)
  {
    hide Safe, Evolves, Typed;
    OpenedIsSafe(w, now);
    EvolvesSelf(w.p.committed);
  }

  // ------------------------------------------------------------------ every step

  /** The one entry that a step may stir from its rest: that of a `submit` that raised, or one that failed
      while it was prepared. */
  function Stirred(w: World, s: Step): Option<nat> {
    if (s.SubmitFails? || s.PrepareFails?) && s.tab in w.pumps then Some(w.pumps[s.tab].i) else None
  }

  /** The one entry that a step may take up: the one a pump has chosen, or one that enters in flight. */
  function Taken(w: World, s: Step): Option<nat> {
    if s.PumpRuns? then Pick(w.p.mem.messages, s.tab)
    else if s.PumpResumes? && s.tab in w.pumps then Some(w.pumps[s.tab].i)
    else if s.Admit? then Entering(w.p, s.item)
    else None
  }

  lemma CallIsSafe(w: World, s: Step, now: int)
    requires Safe(w) && Typed(w) && Enabled(w, s, now) && OfCalls(s)
    ensures Safe(CallNext(w, s, now)) && Onward(w.p, CallNext(w, s, now).p, None, Taken(w, s))
  {
    hide Safe, Onward, Pick, Enqueue, AdmitScheduled, Cancel, ClaimAnswer, Acked, Saw, ScheduledItem, Admissible, Fresh;
    match s
    case Send(tab, principal, call, id, t, limits, o) => SentIsSafe(w, tab, principal, call, id, t, limits, o, now);
    case Admit(item, t, enforceLimit, limits, o) => AdmittedIsSafe(w, item, t, enforceLimit, limits, o, now);
    case Withdraw(tab, id, principal, o) => WithdrawIsSafe(w, tab, id, principal, o, now);
    case ClaimStep(ref, principal, call, callback, id, limits, o) =>
      ClaimedIsSafe(w, ref, principal, call, callback, id, limits, o, now);
  }

  lemma PumpIsSafe(w: World, s: Step, now: int)
    requires Safe(w) && Typed(w) && Enabled(w, s, now) && OfPumps(s)
    ensures Safe(PumpNext(w, s, now)) && Onward(w.p, PumpNext(w, s, now).p, Stirred(w, s), Taken(w, s))
  {
    hide Safe, Onward, Pick, PumpTurn, Resume, BeforeDelivery, SubmitFailed, SubmitReturned, Change, Saw, PumpLands;
    match s
    case PumpRuns(tab, prepares, t, bind, o) => PumpRunsIsSafe(w, tab, prepares, t, bind, o, now);
    case PumpResumes(tab, reason, t, bind, o) => ResumeIsSafe(w, tab, reason, t, bind, o, now);
    case PrepareFails(tab, text, o) => PrepareFailsIsSafe(w, tab, text, o, now);
    case Callback(tab, t, o) => CallbackIsSafe(w, tab, t, o, now);
    case ReachProvider(tab) => ReachIsSafe(w, tab, now);
    case SubmitFails(tab, f, o) => SubmitFailsIsSafe(w, tab, f, o, now);
    case SubmitReturns(tab, o) => SubmitReturnsIsSafe(w, tab, o, now);
  }

  lemma AnswerIsSafe(w: World, s: Step, now: int)
    requires Safe(w) && Typed(w) && Enabled(w, s, now) && OfAnswers(s)
    ensures Safe(AnswerNext(w, s, now)) && Onward(w.p, AnswerNext(w, s, now).p, None, None)
  {
    hide Safe, Onward, AnswerBegin, BeforeDelivery, AnswerEnd;
    match s
    case AnswerBegins(i, o) => AnswerBeginsIsSafe(w, i, o, now);
    case AnswerCallback(i, o) => AnswerCallbackIsSafe(w, i, o, now);
    case AnswerReaches(i) =>
      OnwardSelf(w.p, None, None);
      AnsweredIsSafe(w, i, now);
    case AnswerEnds(i, outcome, o, o2) => AnswerEndsIsSafe(w, i, outcome, o, o2, now);
  }

  lemma ReadIsSafe(w: World, s: Step, now: int)
    requires Safe(w) && Typed(w) && Enabled(w, s, now) && OfReads(s)
    ensures Safe(ReadNext(w, s, now)) && Onward(w.p, ReadNext(w, s, now).p, None, None)
  {
    hide Safe, Onward, MarkRead, CommitProof, LivenessOf, ReadsEvidence;
    match s
    case ReadBegins(r, i, current) => ReadBegunIsSafe(w, r, i, current, now);
    case ReadEnds(r, proof, probe, restarting, o) =>
      var look, e := w.looks[r], w.p.mem.messages[w.looks[r].i];
      VerdictIsSafe(w, r, proof, LivenessOf(e, proof, look.recovering, probe), restarting, o,
                    if (e.state, e.updatedAt) == look.seen then w.recovery - {look.i} else w.recovery, now);
  }

  lemma OnwardEvolves(p: Proc, q: Proc, stirred: Option<nat>, taken: Option<nat>)
    requires Onward(p, q, stirred, taken)
    ensures Evolves(p.committed, q.committed)
  {
  }

  /** No step whatever, failing saves and crashes included, breaks the invariant or takes back anything
      committed. */
  lemma StepIsSafe(w: World, s: Step, now: int)
    requires Safe(w) && Typed(w) && Enabled(w, s, now)
    ensures Safe(Next(w, s, now)) && Evolves(w.p.committed, Next(w, s, now).p.committed)
    ensures !s.Crash? && !s.StartEnds? ==> Onward(w.p, Next(w, s, now).p, Stirred(w, s), Taken(w, s))
  {
    hide Safe, Onward, CallNext, PumpNext, AnswerNext, ReadNext, Around, Enabled, Setting, Typed, Evolves, Pick;
    if OfCalls(s) {
      CallIsSafe(w, s, now);
    } else if OfPumps(s) {
      PumpIsSafe(w, s, now);
    } else if OfAnswers(s) {
      AnswerIsSafe(w, s, now);
    } else if OfReads(s) {
      ReadIsSafe(w, s, now);
    } else if s.StartEnds? {
      StartEndsIsSafe(w, now);
    } else if s.Crash? {
      CrashIsSafe(w, now);
    } else {
      SettingIsEnabled(w, s, now);
      AroundIsSafe(w, s, now);
    }
    if !s.Crash? && !s.StartEnds? { OnwardEvolves(w.p, Next(w, s, now).p, Stirred(w, s), Taken(w, s)); }
  }
}
