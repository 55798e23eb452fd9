/** The `pump` of one tab: whom it picks, that it stops, and what it leaves behind. */
module InboxPump {
  import opened Options
  import opened ChatMessage
  import opened InboxStore
  import opened InboxEvolution
  import opened InboxOps
  import InboxMoves
  import opened InboxProtocol
  import opened InboxSafety
  import InboxSteps
  import opened InboxRuns

  /** What the surroundings answer during one turn of the loop. */
  datatype TurnInput = TurnInput(prepares: bool, t: Target, now: int, bind: Saving, o: Saving)

  function Weight(m: Envelope, tab: string): nat { if m.tab == tab && m.Blocks() then 1 else 0 }

  lemma {:induction false} CountReplace(ms: seq<Envelope>, i: nat, e: Envelope, tab: string)
    requires i < |ms|
    ensures CountBlocking(ms[i := e], tab) == CountBlocking(ms, tab) - Weight(ms[i], tab) + Weight(e, tab)
  {
    var n := |ms| - 1;
    var ns := ms[i := e];
    if i == n {
      assert ns[..n] == ms[..n];
    } else {
      assert ns[..n] == ms[..n][i := e];
      CountReplace(ms[..n], i, e, tab);
    }
  }

  ghost predicate Sequenced(ms: seq<Envelope>) {
    forall i, j | 0 <= i < j < |ms| :: ms[i].sequence < ms[j].sequence
  }

  lemma InvSequenced(s: Store)
    requires Inv(s)
    ensures Sequenced(s.messages)
  {
    forall i, j | 0 <= i < j < |s.messages| ensures s.messages[i].sequence < s.messages[j].sequence {
      assert Compatible(s.messages[i], s.messages[j]);
    }
  }

  /** The picked entry is the lowest in sequence among all that block the tab, as in
      `sorted(..., key=sequence)[0]`, and none of them is in flight. */
  lemma PickIsLowest(s: Store, tab: string, j: nat)
    requires Inv(s) && j < |s.messages| && HeadOf(tab).Hit(s.messages[j]) && Pick(s.messages, tab).Some?
    ensures var i := Pick(s.messages, tab).value;
            && i < |s.messages| && HeadOf(tab).Hit(s.messages[i]) && s.messages[i].state.Unsent()
            && s.messages[i].sequence <= s.messages[j].sequence
            && !s.messages[j].state.InFlight()
  {
    var i := Pick(s.messages, tab).value;
    if i < j { assert Compatible(s.messages[i], s.messages[j]); }
    assert !(HeadOf(tab).Hit(s.messages[i]) && s.messages[i].state.InFlight());
  }

  /** In every world of a run the messages are in sequence, so that the first one a pump could take is the
      one with the lowest sequence, and every pump that finds one finds that. */
  lemma RunPicksLowest(ws: seq<World>, k: nat, tab: string, j: nat)
    requires Run(ws) && k < |ws|
    ensures Sequenced(ws[k].p.mem.messages)
    ensures var ms := ws[k].p.mem.messages;
            j < |ms| && HeadOf(tab).Hit(ms[j]) && Pick(ms, tab).Some? ==>
              && Pick(ms, tab).value < |ms| && ms[Pick(ms, tab).value].sequence <= ms[j].sequence
              && ms[Pick(ms, tab).value].state.Unsent() && !ms[j].state.InFlight()
  {
    hide Starts, Linked, Safe, Pick, Sequenced, Inv;
    RunIsSafe(ws, k);
    InboxSteps.SafeCoherent(ws[k]);
    InboxMoves.MemInv(ws[k].p);
    var s := ws[k].p.mem;
    InvSequenced(s);
    if j < |s.messages| && HeadOf(tab).Hit(s.messages[j]) && Pick(s.messages, tab).Some? { PickIsLowest(s, tab, j); }
  }

  lemma DispatchFinishes(p: Proc, i: nat, t: Target, now: int, bind: Saving, o: Saving)
    requires i < |p.mem.messages| && Dispatch(p, i, t, now, bind, o).1.Again?
    ensures var q := Dispatch(p, i, t, now, bind, o).0;
            && |q.mem.messages| == |p.mem.messages| && q.mem.messages == p.mem.messages[i := q.mem.messages[i]]
            && q.mem.messages[i].state.Terminal() && SameIdentity(p.mem.messages[i], q.mem.messages[i])
            && !q.closing && q.mem == q.committed == q.disk
  {
    hide Restore, Resolve;
    if t.Found? { InboxMoves.ResolveAhead(p.mem, p.mem.messages[i].tab, t); }
  }

  /** A turn that goes round again has finished off the picked entry and touched no other message. */
  lemma AgainFinishesOne(p: Proc, tab: string, x: TurnInput)
    requires PumpTurn(p, tab, x.prepares, x.t, x.now, x.bind, x.o).1.Again?
    ensures var i := Pick(p.mem.messages, tab);
            var q := PumpTurn(p, tab, x.prepares, x.t, x.now, x.bind, x.o).0;
            && i.Some? && i.value < |p.mem.messages| && |q.mem.messages| == |p.mem.messages|
            && q.mem.messages == p.mem.messages[i.value := q.mem.messages[i.value]]
            && q.mem.messages[i.value].state.Terminal() && q.mem.messages[i.value].tab == tab
            && p.mem.messages[i.value].tab == tab && p.mem.messages[i.value].Blocks()
            && SameIdentity(p.mem.messages[i.value], q.mem.messages[i.value])
            && !q.closing && q.mem == q.committed == q.disk
  {
    hide Dispatch;
    var i := Pick(p.mem.messages, tab).value;
    assert HeadOf(tab).Hit(p.mem.messages[i]);
    DispatchFinishes(p, i, x.t, x.now, x.bind, x.o);
  }

  lemma AgainLowersCount(p: Proc, tab: string, x: TurnInput)
    requires PumpTurn(p, tab, x.prepares, x.t, x.now, x.bind, x.o).1.Again?
    ensures var q := PumpTurn(p, tab, x.prepares, x.t, x.now, x.bind, x.o).0;
            CountBlocking(q.mem.messages, tab) == CountBlocking(p.mem.messages, tab) - 1
  {
    hide PumpTurn, Pick;
    AgainFinishesOne(p, tab, x);
    var q := PumpTurn(p, tab, x.prepares, x.t, x.now, x.bind, x.o).0;
    var i := Pick(p.mem.messages, tab).value;
    CountReplace(p.mem.messages, i, q.mem.messages[i], tab);
  }

  lemma AgainKeepsSequence(p: Proc, tab: string, x: TurnInput)
    requires Sequenced(p.mem.messages) && PumpTurn(p, tab, x.prepares, x.t, x.now, x.bind, x.o).1.Again?
    ensures Sequenced(PumpTurn(p, tab, x.prepares, x.t, x.now, x.bind, x.o).0.mem.messages)
  {
    hide PumpTurn, Pick;
    AgainFinishesOne(p, tab, x);
  }

  /** The loop of `pump` up to its first suspension or its return; every round lowers the number of
      messages that block the tab, so it stops whatever the surroundings answer. */
  function PumpLoop(p: Proc, tab: string, inputs: nat -> TurnInput, k: nat): (r: (Proc, Turn))
    ensures !r.1.Again?
    decreases CountBlocking(p.mem.messages, tab)
  {
    var x := inputs(k);
    var r := PumpTurn(p, tab, x.prepares, x.t, x.now, x.bind, x.o);
    if !r.1.Again? then r
    else
      AgainLowersCount(p, tab, x);
      PumpLoop(r.0, tab, inputs, k + 1)
  }

  /** Entries the loop passed over have been cancelled or failed, entries of other tabs and kinds are as
      they were, and nothing that blocks the tab is left before the entry it submits or prepares. */
  lemma {:induction false} PumpLeavesNoGap(p: Proc, tab: string, inputs: nat -> TurnInput, k: nat, j: nat)
    requires j < |p.mem.messages| && (PumpLoop(p, tab, inputs, k).1.Sent? || PumpLoop(p, tab, inputs, k).1.Preparing?)
    ensures var (q, r) := PumpLoop(p, tab, inputs, k);
            && r.i < |q.mem.messages| == |p.mem.messages|
            && q.mem.messages[r.i].tab == tab && q.mem.messages[r.i].kind.Message?
            && (j < r.i && HeadOf(tab).Hit(p.mem.messages[j]) ==> q.mem.messages[j].state.Terminal())
            && (!HeadOf(tab).Hit(p.mem.messages[j]) && j != r.i ==> q.mem.messages[j] == p.mem.messages[j])
    decreases CountBlocking(p.mem.messages, tab)
  {
    hide PumpTurn;
    var x := inputs(k);
    var r := PumpTurn(p, tab, x.prepares, x.t, x.now, x.bind, x.o);
    if r.1.Again? {
      AgainFinishesOne(p, tab, x);
      AgainLowersCount(p, tab, x);
      PumpLeavesNoGap(r.0, tab, inputs, k + 1, j);
    } else {
      LastTurn(p, tab, x, j);
    }
  }

  lemma LastTurn(p: Proc, tab: string, x: TurnInput, j: nat)
    requires j < |p.mem.messages|
    requires PumpTurn(p, tab, x.prepares, x.t, x.now, x.bind, x.o).1.Sent?
             || PumpTurn(p, tab, x.prepares, x.t, x.now, x.bind, x.o).1.Preparing?
    ensures var (q, r) := PumpTurn(p, tab, x.prepares, x.t, x.now, x.bind, x.o);
            && r.i < |q.mem.messages| == |p.mem.messages|
            && q.mem.messages[r.i].tab == tab && q.mem.messages[r.i].kind.Message?
            && (j < r.i ==> !HeadOf(tab).Hit(p.mem.messages[j]))
            && (j != r.i ==> q.mem.messages[j] == p.mem.messages[j])
  {
    hide Dispatch;
    var i := Pick(p.mem.messages, tab).value;
    assert HeadOf(tab).Hit(p.mem.messages[i]);
    if PumpTurn(p, tab, x.prepares, x.t, x.now, x.bind, x.o).1.Sent? {
      SentTouchesOne(p, i, x.t, x.now, x.bind, x.o);
    } else {
      NeverPreparing(p, i, x.t, x.now, x.bind, x.o);
    }
  }

  lemma NeverPreparing(p: Proc, i: nat, t: Target, now: int, bind: Saving, o: Saving)
    requires i < |p.mem.messages|
    ensures !Dispatch(p, i, t, now, bind, o).1.Preparing?
  {
  }

  lemma SentTouchesOne(p: Proc, i: nat, t: Target, now: int, bind: Saving, o: Saving)
    requires i < |p.mem.messages| && Dispatch(p, i, t, now, bind, o).1.Sent?
    ensures var (q, r) := Dispatch(p, i, t, now, bind, o);
            && r.i == i && |q.mem.messages| == |p.mem.messages|
            && q.mem.messages == p.mem.messages[i := q.mem.messages[i]]
            && q.mem.messages[i].tab == p.mem.messages[i].tab && q.mem.messages[i].kind == p.mem.messages[i].kind
  {
    hide Restore, Resolve;
    if t.Found? { InboxMoves.ResolveAhead(p.mem, p.mem.messages[i].tab, t); }
  }

  /** The loop comes to rest only when the inbox is closing, when nothing blocks the tab, when something
      on it is in flight, or when the head has been told to wait; never with a head it could send. */
  lemma {:induction false} PumpIdlesForAReason(p: Proc, tab: string, inputs: nat -> TurnInput, k: nat)
    requires PumpLoop(p, tab, inputs, k).1.Idle?
    ensures var q := PumpLoop(p, tab, inputs, k).0;
            || q.closing
            || (forall j | 0 <= j < |q.mem.messages| :: !HeadOf(tab).Hit(q.mem.messages[j]))
            || (exists j ::
                  0 <= j < |q.mem.messages| && HeadOf(tab).Hit(q.mem.messages[j])
                  && q.mem.messages[j].state.InFlight())
            || (First(q.mem.messages, HeadOf(tab)) < |q.mem.messages|
                && q.mem.messages[First(q.mem.messages, HeadOf(tab))].state.Waiting?)
    decreases CountBlocking(p.mem.messages, tab)
  {
    hide PumpTurn;
    var x := inputs(k);
    var r := PumpTurn(p, tab, x.prepares, x.t, x.now, x.bind, x.o);
    if r.1.Again? {
      AgainLowersCount(p, tab, x);
      PumpIdlesForAReason(r.0, tab, inputs, k + 1);
    } else if !(p.closing || Pick(p.mem.messages, tab).None?) {
      IdleMeansWaiting(p, tab, x);
    } else {
      IdleAtOnce(p, tab, x);
    }
  }

  lemma IdleAtOnce(p: Proc, tab: string, x: TurnInput)
    requires p.closing || Pick(p.mem.messages, tab).None?
    ensures PumpTurn(p, tab, x.prepares, x.t, x.now, x.bind, x.o) == (p, Idle)
  {
  }

  lemma IdleMeansWaiting(p: Proc, tab: string, x: TurnInput)
    requires PumpTurn(p, tab, x.prepares, x.t, x.now, x.bind, x.o).1.Idle? && !p.closing
             && Pick(p.mem.messages, tab).Some?
    ensures var q := PumpTurn(p, tab, x.prepares, x.t, x.now, x.bind, x.o).0;
            First(q.mem.messages, HeadOf(tab)) < |q.mem.messages|
              && q.mem.messages[First(q.mem.messages, HeadOf(tab))].state.Waiting?
  {
    hide Dispatch;
    var ms, i := p.mem.messages, Pick(p.mem.messages, tab).value;
    assert HeadOf(tab).Hit(ms[i]);
    DispatchIdles(p, i, x.t, x.now, x.bind, x.o);
    var q := PumpTurn(p, tab, x.prepares, x.t, x.now, x.bind, x.o).0;
    assert forall j | 0 <= j < i :: q.mem.messages[j] == ms[j];
    assert HeadOf(tab).Hit(q.mem.messages[i]);
    assert First(q.mem.messages, HeadOf(tab)) == i;
  }

  lemma DispatchIdles(p: Proc, i: nat, t: Target, now: int, bind: Saving, o: Saving)
    requires i < |p.mem.messages| && Dispatch(p, i, t, now, bind, o).1.Idle?
    ensures var q := Dispatch(p, i, t, now, bind, o).0;
            && |q.mem.messages| == |p.mem.messages| && q.mem.messages == p.mem.messages[i := q.mem.messages[i]]
            && SameIdentity(p.mem.messages[i], q.mem.messages[i]) && q.mem.messages[i].state.Waiting?
  {
    hide Restore, Resolve;
    if t.Found? { InboxMoves.ResolveAhead(p.mem, p.mem.messages[i].tab, t); }
  }

  // ------------------------------------------------------------------ from admission to acceptance

  /** Observing the same target again changes nothing. */
  lemma ResolveAgain(s: Store, tab: string, t: Target)
    requires t.Found?
    ensures Resolve(Resolve(s, tab, t), tab, t) == Resolve(s, tab, t)
  {
  }

  lemma ResolveElsewhere(s: Store, r: Store, tab: string, t: Target)
    requires t.Found? && Resolve(s, tab, t) == s && r.epochs == s.epochs && r.conversations == s.conversations
    ensures Resolve(r, tab, t) == r
  {
  }

  /** A pump, the callback and the return of one `submit`, when nothing goes wrong; none if the pump
      sends nothing or the callback refuses. */
  function Deliver(p: Proc, tab: string, prepares: bool, t: Target, now: int): Option<(nat, Proc)> {
    var (sent, turn) := PumpTurn(p, tab, prepares, t, now, SaveOk, SaveOk);
    if turn.Sent? && turn.i < |sent.mem.messages| then
      var (marked, clear) := BeforeDelivery(sent, turn.i, t, SaveOk);
      if clear && turn.i < |marked.mem.messages| then Some((turn.i, SubmitReturned(marked, turn.i, now + 1, SaveOk)))
        else None
    else None
  }

  /** A message sent to a tab with nothing before it, whose target stays as it is and whose saves succeed,
      is picked by the next pump, passes its callback and is accepted, with the mark in the file. */
  lemma MessageGetsThrough(p: Proc, tab: string, principal: string, call: Call, id: string, t: Target, limits: Limits,
                           now: int, prepares: bool)
    requires !p.closing && t.Found? && t.waitingReason == ""
    requires forall j | 0 <= j < |p.mem.messages| :: !HeadOf(tab).Hit(p.mem.messages[j])
    requires First(p.mem.messages, ByCall(principal, tab, Incarnate(Resolve(p.mem, tab, t), tab, t), call.callId))
             == |p.mem.messages|
    requires CountBlocking(p.mem.messages, tab) < limits.maxPending
             && BlockingBytes(p.mem.messages, tab) + |call.body| <= limits.maxBytes
    ensures var n, r := |p.mem.messages|, Enqueue(p, tab, principal, call, id, t, limits, now, SaveOk);
            var d := Deliver(r.0, tab, prepares, t, now + 1);
            && r.1.Receipt? && d.Some? && d.value.0 == n
            && var q := d.value.1;
               && q.mem == q.committed == q.disk && |q.mem.messages| == n + 1 && q.mem.messages[..n] == p.mem.messages
               && q.mem.messages[n].id == id && q.mem.messages[n].state.Accepted? && q.mem.messages[n].started
  {
    hide First, CountBlocking, BlockingBytes, MaxSequence, Resolve, Restore;
    var n, m := |p.mem.messages|, Resolve(p.mem, tab, t);
    InboxMoves.ResolveAhead(p.mem, tab, t);
    ResolveAgain(p.mem, tab, t);
    var admitted := Enqueue(p, tab, principal, call, id, t, limits, now, SaveOk).0;
    assert admitted.mem == Append(m, admitted.mem.messages[n]);
    ResolveElsewhere(m, admitted.mem, tab, t);
    PicksTheLast(admitted.mem.messages, tab);
    var sent := PumpTurn(admitted, tab, prepares, t, now + 1, SaveOk, SaveOk).0;
    assert sent.mem.epochs == m.epochs && sent.mem.conversations == m.conversations;
    ResolveElsewhere(m, sent.mem, tab, t);
    assert sent.mem.messages[n].state.Dispatching?;
  }

  lemma PicksTheLast(ms: seq<Envelope>, tab: string)
    requires |ms| > 0 && HeadOf(tab).Hit(ms[|ms| - 1]) && !ms[|ms| - 1].state.InFlight()
    requires forall j | 0 <= j < |ms| - 1 :: !HeadOf(tab).Hit(ms[j])
    ensures Pick(ms, tab) == Some(|ms| - 1)
  {
    assert First(ms, HeadOf(tab)) == |ms| - 1;
  }
}
