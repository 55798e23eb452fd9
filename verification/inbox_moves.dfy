/** Every operation of the inbox is a few moves, each of which either leaves the file alone or tries to
    save one legal mutation.  The invariants of the store are kept, and what is committed only evolves,
    move by move; the protocol above needs nothing else about most operations. */
module InboxMoves {
  import opened Options
  import opened ChatMessage
  import opened InboxStore
  import opened InboxEvolution
  import opened InboxOps

  /** The memory is the committed payload but for what may be lost, and the file holds the committed
      payload or something it evolved into. */
  ghost predicate Coherent(p: Proc) {
    && Inv(p.committed) && Inv(p.disk)
    && Evolves(p.committed, p.disk)
    && Ahead(p.committed, p.mem)
  }

  ghost predicate Quiet(p: Proc, q: Proc) {
    q == p.(mem := q.mem) && Ahead(p.mem, q.mem)
  }

  ghost predicate Saves(p: Proc, m: Store, q: Proc, now: int, exempt: Option<nat>, o: Saving) {
    Legal(p.mem, m, now, exempt) && q == Save(p.(mem := m), o)
  }

  ghost predicate Move(p: Proc, q: Proc, now: int, exempt: Option<nat>) {
    Quiet(p, q) || exists m, o :: Saves(p, m, q, now, exempt, o)
  }

  /** At most three moves, as many as one operation makes. */
  ghost predicate Moves(p: Proc, q: Proc, now: int, exempt: Option<nat>) {
    exists r, s :: Move(p, r, now, exempt) && Move(r, s, now, exempt) && Move(s, q, now, exempt)
  }

  /** While the inbox stays open, the memory forgets no observed conversation and no epoch. */
  ghost predicate Remembers(p: Proc, q: Proc) {
    !q.closing ==> !p.closing && PinsFollow(p.mem, q.mem)
  }

  /** The state in which a message rests, if it does. */
  function Rest(s: Store, i: nat): Option<State> {
    if i < |s.messages| && s.messages[i].AtRest() then Some(s.messages[i].state) else None
  }

  function EntryAt(s: Store, i: nat): Option<Envelope> { if i < |s.messages| then Some(s.messages[i]) else None }

  /** A message at rest stays as it is in memory, but for one that is stirred; and where the file says
      otherwise of a message at rest, it said so before. */
  ghost predicate KeepsRest(p: Proc, q: Proc, stirred: Option<nat>) {
    && (forall i: nat {:trigger Rest(p.mem, i)} {:trigger Rest(q.mem, i)} |
          Rest(p.mem, i).Some? && stirred != Some(i) :: Rest(q.mem, i) == Rest(p.mem, i))
    && (forall i: nat {:trigger Rest(q.mem, i)} | Rest(q.mem, i).Some? && stirred != Some(i) ::
          || Rest(q.disk, i) == Rest(q.mem, i)
          || (Rest(p.mem, i) == Rest(q.mem, i) && EntryAt(q.disk, i) == EntryAt(p.disk, i)))
  }

  ghost predicate UnderwayAt(s: Store, i: nat) { i < |s.messages| && s.messages[i].Underway() }

  /** At most one entry comes to be under way, the one taken up. */
  ghost predicate TakesUp(p: Proc, q: Proc, taken: Option<nat>) {
    forall i: nat {:trigger UnderwayAt(q.mem, i)} | UnderwayAt(q.mem, i) && taken != Some(i) :: UnderwayAt(p.mem, i)
  }

  ghost predicate Onward(p: Proc, q: Proc, stirred: Option<nat>, taken: Option<nat>) {
    Evolves(p.committed, q.committed) && Remembers(p, q) && KeepsRest(p, q, stirred) && TakesUp(p, q, taken)
  }

  lemma OnwardSelf(p: Proc, stirred: Option<nat>, taken: Option<nat>)
    ensures Onward(p, p, stirred, taken)
  {
    EvolvesSelf(p.committed);
    EvolvesSelf(p.mem);
  }

  lemma OnwardTrans(p: Proc, q: Proc, r: Proc, stirred: Option<nat>, taken: Option<nat>)
    requires Onward(p, q, stirred, taken) && Onward(q, r, stirred, taken)
    ensures Onward(p, r, stirred, taken)
  {
    hide Evolves, PinFollows, KeepsRest, TakesUp;
    EvolvesTrans(p.committed, q.committed, r.committed);
    RemembersTrans(p, q, r);
    RestTrans(p, q, r, stirred);
    TakesUpTrans(p, q, r, taken);
  }

  lemma RestTrans(p: Proc, q: Proc, r: Proc, stirred: Option<nat>)
    requires KeepsRest(p, q, stirred) && KeepsRest(q, r, stirred)
    ensures KeepsRest(p, r, stirred)
  {
    hide Rest;
    forall i: nat | Rest(r.mem, i).Some? && stirred != Some(i)
      ensures || Rest(r.disk, i) == Rest(r.mem, i)
              || (Rest(p.mem, i) == Rest(r.mem, i) && EntryAt(r.disk, i) == EntryAt(p.disk, i))
    {
      if Rest(r.disk, i) != Rest(r.mem, i) {
        assert Rest(q.mem, i) == Rest(r.mem, i) && EntryAt(r.disk, i) == EntryAt(q.disk, i);
        SameRest(r.disk, q.disk, i);
      }
    }
    forall i: nat | Rest(p.mem, i).Some? && stirred != Some(i) ensures Rest(r.mem, i) == Rest(p.mem, i) {
      assert Rest(q.mem, i) == Rest(p.mem, i);
    }
  }

  lemma SameRest(a: Store, b: Store, i: nat)
    requires EntryAt(a, i) == EntryAt(b, i)
    ensures Rest(a, i) == Rest(b, i)
  {
  }

  lemma TakesUpTrans(p: Proc, q: Proc, r: Proc, taken: Option<nat>)
    requires TakesUp(p, q, taken) && TakesUp(q, r, taken)
    ensures TakesUp(p, r, taken)
  {
    hide UnderwayAt;
    forall i: nat | UnderwayAt(r.mem, i) && taken != Some(i) ensures UnderwayAt(p.mem, i) {
      assert UnderwayAt(q.mem, i);
    }
  }

  lemma RemembersTrans(p: Proc, q: Proc, r: Proc)
    requires Remembers(p, q) && Remembers(q, r)
    ensures Remembers(p, r)
  {
    if !r.closing {
      forall key: Key ensures PinFollows(p.mem, r.mem, key) {
        assert PinFollows(p.mem, q.mem, key) && PinFollows(q.mem, r.mem, key);
      }
    }
  }

  /** The file says of a message at rest what the memory says. */
  ghost predicate FileAgrees(p: Proc, i: nat) { Rest(p.mem, i).Some? ==> Rest(p.disk, i) == Rest(p.mem, i) }

  /** An entry that was not at rest, and of which the file agrees, is not stirred. */
  lemma NotStirred(p: Proc, q: Proc, i: nat)
    requires Onward(p, q, Some(i), Some(i)) && Rest(p.mem, i).None? && FileAgrees(q, i)
    ensures Onward(p, q, None, Some(i))
  {
    hide Evolves, Remembers, Rest, TakesUp;
  }

  /** One that is not under way is not taken up. */
  lemma NotTakenUp(p: Proc, q: Proc, stirred: Option<nat>, i: nat)
    requires Onward(p, q, stirred, Some(i)) && (UnderwayAt(q.mem, i) ==> UnderwayAt(p.mem, i))
    ensures Onward(p, q, stirred, None)
  {
    hide Evolves, Remembers, KeepsRest, UnderwayAt;
  }

  lemma Stay(p: Proc, now: int, exempt: Option<nat>)
    ensures Move(p, p, now, exempt)
  {
    assert Quiet(p, p);
  }

  lemma OneMove(p: Proc, q: Proc, now: int, exempt: Option<nat>)
    requires Move(p, q, now, exempt)
    ensures Moves(p, q, now, exempt)
  {
    Stay(q, now, exempt);
  }

  lemma TwoMoves(p: Proc, r: Proc, q: Proc, now: int, exempt: Option<nat>)
    requires Move(p, r, now, exempt) && Move(r, q, now, exempt)
    ensures Moves(p, q, now, exempt)
  {
    Stay(q, now, exempt);
  }

  lemma MemInv(p: Proc)
    requires Coherent(p)
    ensures Inv(p.mem) && Evolves(p.committed, p.mem)
  {
    AheadInv(p.committed, p.mem);
    AheadEvolves(p.committed, p.mem);
  }

  /** A failed save finds the committed payload readable and goes back to it. */
  lemma SaveOutcome(p: Proc, o: Saving)
    requires Inv(p.committed)
    ensures o.SaveOk? ==> Save(p, o) == Proc(p.mem, p.mem, p.mem, p.closing)
    ensures o.FailsBeforeReplace? ==> Save(p, o) == Proc(p.committed, p.committed, p.disk, true)
    ensures o.FailsAfterReplace? ==> Save(p, o) == Proc(p.committed, p.committed, p.mem, true)
  {
    RestoreAcceptsExactlyWellFormed(p.committed);
  }

  lemma SaveKeeps(p: Proc, m: Store, q: Proc, now: int, exempt: Option<nat>, o: Saving)
    requires Coherent(p) && Saves(p, m, q, now, exempt, o)
    ensures Coherent(q) && Onward(p, q, exempt, exempt)
  {
    hide Inv, Evolves, MessagesFollow, QuestionsFollow, PinsFollow, AllStep, Restore;
    MemInv(p);
    EvolvesTrans(p.committed, p.mem, m);
    SaveOutcome(p.(mem := m), o);
    LegalPins(p.mem, m, now, exempt);
    LegalRest(p.mem, m, now, exempt);
    LegalUnderway(p.mem, m, now, exempt);
    AheadRest(p.committed, p.mem);
    EvolvesSelf(m);
    EvolvesSelf(p.committed);
    AheadSelf(m);
    AheadSelf(p.committed);
  }

  lemma AheadSelf(s: Store)
    ensures Ahead(s, s)
  {
  }

  lemma AheadPins(a: Store, b: Store)
    requires Ahead(a, b)
    ensures PinsFollow(a, b)
  {
  }

  lemma AheadRest(a: Store, b: Store)
    requires Ahead(a, b)
    ensures forall i: nat :: Rest(a, i) == Rest(b, i)
    ensures forall i: nat :: UnderwayAt(a, i) == UnderwayAt(b, i)
  {
    forall i: nat | i < |a.messages|
      ensures a.messages[i].AtRest() == b.messages[i].AtRest() && a.messages[i].state == b.messages[i].state
      ensures a.messages[i].Underway() == b.messages[i].Underway()
    {
      assert Durable(a.messages[i]) == Durable(b.messages[i]);
      DurableMeans(a.messages[i], b.messages[i]);
    }
  }

  lemma LegalRest(a: Store, b: Store, now: int, exempt: Option<nat>)
    requires Legal(a, b, now, exempt)
    ensures forall i: nat :: Rest(a, i).Some? && exempt != Some(i) ==> Rest(b, i) == Rest(a, i)
  {
    hide Inv;
    forall i: nat | Rest(a, i).Some? && exempt != Some(i) ensures Rest(b, i) == Rest(a, i) {
      assert Follows(a.messages[i], b.messages[i]) && Steps(a.messages[i], b.messages[i], now, exempt == Some(i));
    }
  }

  lemma LegalUnderway(a: Store, b: Store, now: int, exempt: Option<nat>)
    requires Legal(a, b, now, exempt)
    ensures forall i: nat :: UnderwayAt(b, i) && exempt != Some(i) ==> UnderwayAt(a, i)
  {
    hide Inv;
    forall i: nat | UnderwayAt(b, i) && exempt != Some(i) ensures UnderwayAt(a, i) {
      assert i < |a.messages| ==> Steps(a.messages[i], b.messages[i], now, exempt == Some(i));
    }
  }

  lemma LegalPins(a: Store, b: Store, now: int, exempt: Option<nat>)
    requires Legal(a, b, now, exempt)
    ensures PinsFollow(a, b)
  {
    hide Inv;
  }

  lemma MoveKeeps(p: Proc, q: Proc, now: int, exempt: Option<nat>)
    requires Coherent(p) && Move(p, q, now, exempt)
    ensures Coherent(q) && Onward(p, q, exempt, exempt)
  {
    hide Inv, Evolves, Ahead, Legal, Restore;
    if Quiet(p, q) {
      AheadTrans(p.committed, p.mem, q.mem);
      EvolvesSelf(p.committed);
      AheadPins(p.mem, q.mem);
      AheadRest(p.mem, q.mem);
    } else {
      var m, o :| Saves(p, m, q, now, exempt, o);
      SaveKeeps(p, m, q, now, exempt, o);
    }
  }

  // ------------------------------------------------------------------ quiet moves

  lemma ResolveAhead(s: Store, tab: string, t: Target)
    requires t.Found?
    ensures Ahead(s, Resolve(s, tab, t))
    ensures Resolve(s, tab, t).messages == s.messages
  {
    var m := Resolve(s, tab, t);
    forall key: Key ensures PinFollows(s, m, key) {}
  }

  /** After `_target` the pinned conversation is the observed one. */
  lemma ResolvePins(s: Store, tab: string, t: Target)
    requires t.Found?
    ensures Resolve(s, tab, t).Pinned((tab, t.base)) == t.conversation
  {
  }

  lemma TouchAhead(s: Store, i: nat, e: Envelope)
    requires i < |s.messages| && Durable(e) == Durable(s.messages[i])
    ensures Ahead(s, Replace(s, i, e))
  {
  }

  // ------------------------------------------------------------------ saved changes

  /** May `_change` take this entry to that state? */
  ghost predicate MayChange(e: Envelope, s: State) {
    && (e.kind.Message? && e.state.Terminal() ==> s.Failed? && e.scheduled && !e.started)
    && (e.kind.Message? && s.Uncertain? ==> e.state.InFlight())
    && (e.started ==> !s.Unsent() && e.Progress() <= e.(state := s).Progress())
    && (e.InDoubt() && e.started ==> s.Uncertain?)
  }

  ghost predicate Reopens(e: Envelope, s: State) {
    || (e.AtRest() && s != e.state)
    || (e.(state := s).Underway() && !e.Underway())
    || (Stamp(e, s, NoNote, 0).HoldsTab() && !e.HoldsTab())
  }

  /** Every stamp is older than the clock reading of this step. */
  ghost predicate Earlier(s: Store, now: int) {
    forall j {:trigger s.messages[j]} | 0 <= j < |s.messages| :: s.messages[j].updatedAt < now
  }

  lemma ChangeMove(p: Proc, i: nat, s: State, reason: Note, now: int, o: Saving, exempt: bool)
    requires Coherent(p) && Earlier(p.mem, now) && i < |p.mem.messages| && MayChange(p.mem.messages[i], s)
    requires exempt || !Reopens(p.mem.messages[i], s)
    requires Stamp(p.mem.messages[i], s, NoNote, 0).HoldsTab() ==>
               p.mem.messages[i].HoldsTab() || TabFree(p.mem.messages, p.mem.messages[i].tab, i)
    ensures Move(p, Change(p, i, s, reason, now, o), now, if exempt then Some(i) else None)
  {
    var x := if exempt then Some(i) else None;
    if p.closing {
      Stay(p, now, x);
    } else {
      MemInv(p);
      var a := p.mem.messages[i];
      var e := Stamp(a, s, reason, now);
      assert Sound(a);
      ReplaceLegal(p.mem, i, e, now, exempt);
      assert Saves(p, Replace(p.mem, i, e), Change(p, i, s, reason, now, o), now, x, o);
    }
  }

  lemma QuietMove(p: Proc, m: Store, now: int, exempt: Option<nat>)
    requires Ahead(p.mem, m)
    ensures Move(p, p.(mem := m), now, exempt)
  {
    assert Quiet(p, p.(mem := m));
  }

  // ------------------------------------------------------------------ the operations

  lemma NoSameCall(ms: seq<Envelope>, e: Envelope)
    requires e.incarnation.At?
    requires First(ms, ByCall(e.principal, e.tab, e.incarnation, e.callId)) == |ms|
    ensures forall j | 0 <= j < |ms| :: !SameCall(ms[j], e)
  {
    assert forall j | 0 <= j < |ms| :: !ByCall(e.principal, e.tab, e.incarnation, e.callId).Hit(ms[j]);
  }

  /** What is observed just before a legal mutation is saved with it. */
  lemma AheadThenLegal(a: Store, b: Store, c: Store, now: int, exempt: Option<nat>)
    requires Ahead(a, b) && Legal(b, c, now, exempt)
    ensures Legal(a, c, now, exempt)
  {
    hide Inv;
    AheadEvolves(a, b);
    EvolvesTrans(a, b, c);
    forall i | 0 <= i < |a.messages| ensures Steps(a.messages[i], c.messages[i], now, exempt == Some(i)) {
      assert Durable(a.messages[i]) == Durable(b.messages[i]);
      DurableMeans(a.messages[i], b.messages[i]);
      assert Steps(b.messages[i], c.messages[i], now, exempt == Some(i));
      assert Follows(b.messages[i], c.messages[i]);
    }
  }

  /** An observation and the save that follows it are one move. */
  lemma ObserveThenSave(p: Proc, m: Store, c: Store, now: int, exempt: Option<nat>, o: Saving)
    requires Ahead(p.mem, m) && Legal(m, c, now, exempt)
    ensures Move(p, Save(p.(mem := c), o), now, exempt)
  {
    AheadThenLegal(p.mem, m, c, now, exempt);
    assert Saves(p, c, Save(p.(mem := c), o), now, exempt, o);
  }

  lemma EnqueueMoves(p: Proc, tab: string, principal: string, call: Call, id: string, t: Target, limits: Limits,
                     now: int, o: Saving)
    requires Coherent(p) && First(p.mem.messages, ById(id)) == |p.mem.messages|
    ensures Move(p, Enqueue(p, tab, principal, call, id, t, limits, now, o).0, now, None)
  {
    hide Inv, Evolves, Ahead, Legal, First, MaxSequence, CountBlocking, BlockingBytes, Save, Resolve;
    var q := Enqueue(p, tab, principal, call, id, t, limits, now, o).0;
    Stay(p, now, None);
    if !p.closing && t.Found? {
      var m := Resolve(p.mem, tab, t);
      ResolveAhead(p.mem, tab, t);
      QuietMove(p, m, now, None);
      if q != p.(mem := m) {
        MemInv(p);
        AheadInv(p.mem, m);
        var e := NewMessage(m, tab, principal, call, id, Incarnate(m, tab, t), now);
        NoSameCall(m.messages, e);
        AppendLegal(m, e, now);
        ObserveThenSave(p, m, Append(m, e), now, None, o);
      }
    }
  }

  /** The place of an entry that is admitted in flight. */
  function Entering(p: Proc, item: Envelope): Option<nat> {
    if item.Underway() then Some(|p.mem.messages|) else None
  }

  lemma AdmitMoves(p: Proc, item: Envelope, enforceLimit: bool, limits: Limits, now: int, o: Saving)
    requires Coherent(p) && Admissible(item, now)
    ensures Move(p, AdmitScheduled(p, item, enforceLimit, limits, o).0, now, Entering(p, item))
  {
    hide Inv, Evolves, Ahead, Legal, First, MaxSequence, CountBlocking, Save;
    var q := AdmitScheduled(p, item, enforceLimit, limits, o).0;
    if q == p {
      Stay(p, now, Entering(p, item));
    } else {
      MemInv(p);
      var e := item.(sequence := MaxSequence(p.mem.messages) + 1);
      AppendLegal(p.mem, e, now);
      assert Saves(p, Append(p.mem, e), q, now, Entering(p, item), o);
    }
  }

  lemma CancelMoves(p: Proc, tab: string, id: string, principal: string, now: int, o: Saving)
    requires Coherent(p) && Earlier(p.mem, now)
    ensures Move(p, Cancel(p, tab, id, principal, now, o).0, now, None)
  {
    hide Inv, Evolves, Ahead, Legal, First, Save;
    var k := First(p.mem.messages, ById(id));
    var q := Cancel(p, tab, id, principal, now, o).0;
    if q == p {
      Stay(p, now, None);
    } else {
      UnsentNotStarted(p, k);
      ChangeMove(p, k, Cancelled, NoNote, now, o, false);
    }
  }

  lemma UnsentNotStarted(p: Proc, i: nat)
    requires Coherent(p) && i < |p.mem.messages|
    ensures Sound(p.mem.messages[i])
  {
    MemInv(p);
  }

  lemma CancelScheduledMoves(p: Proc, id: string, release: bool, now: int, o: Saving)
    requires Coherent(p) && Earlier(p.mem, now)
    ensures Move(p, CancelScheduled(p, id, release, now, o).0, now, None)
  {
    hide Inv, Evolves, Ahead, Legal, First, Save;
    var k := First(p.mem.messages, ById(id));
    var q := CancelScheduled(p, id, release, now, o).0;
    if q == p {
      Stay(p, now, None);
    } else {
      UnsentNotStarted(p, k);
      ChangeMove(p, k, Cancelled, NoNote, now, o, false);
    }
  }

  lemma TurnCompletedMoves(p: Proc, tab: string, turn: string, status: string, now: int, o: Saving)
    requires Coherent(p) && Earlier(p.mem, now)
    ensures Move(p, TurnCompleted(p, tab, turn, status, now, o), now, None)
  {
    hide Inv, Evolves, Ahead, Legal, First, Save;
    var k := First(p.mem.messages, ByTurn(tab, turn));
    var q := TurnCompleted(p, tab, turn, status, now, o);
    if p.closing || k == |p.mem.messages| {
      Stay(p, now, None);
    } else {
      UnsentNotStarted(p, k);
      ChangeMove(p, k, TurnState(status, p.mem.messages[k].scheduled), NoNote, now, o, false);
    }
  }

  lemma NotAtRest(p: Proc, i: nat)
    requires Coherent(p) && i < |p.mem.messages| && p.mem.messages[i].state.Unsent()
    ensures Inv(p.committed) && Rest(p.mem, i).None? && Rest(p.committed, i).None?
  {
    hide Inv;
    AheadRest(p.committed, p.mem);
  }

  lemma SaveAgrees(p: Proc, m: Store, o: Saving, i: nat)
    requires Coherent(p) && Rest(p.committed, i).None?
    ensures FileAgrees(Save(p.(mem := m), o), i)
  {
    hide Inv, Restore, Rest;
    CommittedInv(p);
    SaveOutcome(p.(mem := m), o);
  }

  lemma BeginSubmitMove(p: Proc, i: nat, inc: Incarnation, waitingReason: string, now: int, o: Saving)
    requires Coherent(p) && Earlier(p.mem, now) && Ready(p.mem, i)
    ensures Move(p, BeginSubmit(p, i, inc, waitingReason, now, o).0, now, Some(i))
    ensures FileAgrees(BeginSubmit(p, i, inc, waitingReason, now, o).0, i)
  {
    hide Inv, Evolves, Ahead, Legal, Save;
    var e := p.mem.messages[i];
    UnsentNotStarted(p, i);
    NotAtRest(p, i);
    if !p.closing {
      SaveAgrees(p, Replace(p.mem, i, Stamp(e, Failed, IncarnationChanged, now)), o, i);
      SaveAgrees(p, Replace(p.mem, i, Stamp(e, Waiting, Text(waitingReason), now)), o, i);
      var tried := e.(attempts := e.attempts + 1);
      var m := Replace(Replace(p.mem, i, tried), i, Stamp(tried, Dispatching, NoNote, now));
      SaveAgrees(p, m, o, i);
      assert p.(mem := Replace(p.mem, i, tried)).(mem := m) == p.(mem := m);
    }
    if inc != e.incarnation {
      ChangeMove(p, i, Failed, IncarnationChanged, now, o, true);
    } else if waitingReason != "" {
      ChangeMove(p, i, Waiting, Text(waitingReason), now, o, true);
    } else {
      TouchChangeMove(p, i, e.(attempts := e.attempts + 1), Dispatching, NoNote, now, o);
    }
  }

  /** Setting the attempt count and then changing the state is one move, and only a quiet one while closing. */
  lemma TouchChangeMove(p: Proc, i: nat, e: Envelope, s: State, reason: Note, now: int, o: Saving)
    requires Coherent(p) && Earlier(p.mem, now) && i < |p.mem.messages| && Durable(e) == Durable(p.mem.messages[i])
    requires MayChange(p.mem.messages[i], s)
    requires Stamp(e, s, NoNote, 0).HoldsTab() ==>
               p.mem.messages[i].HoldsTab() || TabFree(p.mem.messages, p.mem.messages[i].tab, i)
    ensures Move(p, Change(p.(mem := Replace(p.mem, i, e)), i, s, reason, now, o), now, Some(i))
  {
    hide Inv, Evolves, Ahead, Legal, Save;
    var m := Replace(p.mem, i, e);
    TouchAhead(p.mem, i, e);
    if p.closing {
      QuietMove(p, m, now, Some(i));
    } else {
      UnsentNotStarted(p, i);
      MemInv(p);
      DurableMeans(p.mem.messages[i], e);
      AheadInv(p.mem, m);
      ReplaceLegal(m, i, Stamp(e, s, reason, now), now, true);
      ObserveThenSave(p, m, Replace(m, i, Stamp(e, s, reason, now)), now, Some(i), o);
    }
  }

  /** An entry the pump may dispatch: unsent, with nothing of this inbox holding its tab. */
  ghost predicate Ready(s: Store, i: nat) {
    && i < |s.messages|
    && s.messages[i].kind.Message?
    && s.messages[i].state.Unsent()
    && TabFree(s.messages, s.messages[i].tab, i)
  }

  lemma BindMove(p: Proc, i: nat, t: Target, now: int, bind: Saving)
    requires Coherent(p) && Ready(p.mem, i) && t.Found?
    requires p.mem.messages[i].scheduled && p.mem.messages[i].incarnation.Unset?
    ensures var m := Resolve(p.mem, p.mem.messages[i].tab, t);
            var inc := Incarnate(m, p.mem.messages[i].tab, t);
            Move(p, Save(p.(mem := Replace(m, i, p.mem.messages[i].(incarnation := inc))), bind), now, Some(i))
  {
    hide Inv, Evolves, Ahead, Legal, Save, Resolve;
    var m := Resolve(p.mem, p.mem.messages[i].tab, t);
    var inc := Incarnate(m, p.mem.messages[i].tab, t);
    ResolveAhead(p.mem, p.mem.messages[i].tab, t);
    MemInv(p);
    AheadInv(p.mem, m);
    UnsentNotStarted(p, i);
    ReplaceLegal(m, i, p.mem.messages[i].(incarnation := inc), now, true);
    ObserveThenSave(p, m, Replace(m, i, p.mem.messages[i].(incarnation := inc)), now, Some(i), bind);
  }

  lemma DispatchMoves(p: Proc, i: nat, t: Target, now: int, bind: Saving, o: Saving)
    requires Coherent(p) && Earlier(p.mem, now) && Ready(p.mem, i)
    ensures Moves(p, Dispatch(p, i, t, now, bind, o).0, now, Some(i))
    ensures Rest(p.mem, i).None? && FileAgrees(Dispatch(p, i, t, now, bind, o).0, i)
  {
    hide Inv, Evolves, Ahead, Legal, Save, Resolve, BeginSubmit, Move, Coherent;
    NotAtRest(p, i);
    var q := Dispatch(p, i, t, now, bind, o).0;
    UnsentNotStarted(p, i);
    if t.NoTarget? {
      var state := if t.status == 404 then Cancelled else Failed;
      ChangeMove(p, i, state, Text(t.detail), now, o, true);
      SaveAgrees(p, Replace(p.mem, i, Stamp(p.mem.messages[i], state, Text(t.detail), now)), o, i);
      OneMove(p, q, now, Some(i));
    } else {
      var tab := p.mem.messages[i].tab;
      var m := Resolve(p.mem, tab, t);
      var inc := Incarnate(m, tab, t);
      ResolveAhead(p.mem, tab, t);
      var e := m.messages[i];
      if e.scheduled && e.incarnation.Unset? {
        BindMove(p, i, t, now, bind);
        var c := Replace(m, i, e.(incarnation := inc));
        var bound := Save(p.(mem := c), bind);
        if bind.SaveOk? {
          MoveKeeps(p, bound, now, Some(i));
          CommittedInv(p);
          SaveOutcome(p.(mem := c), bind);
          BeginSubmitMove(bound, i, inc, t.waitingReason, now, o);
          TwoMoves(p, bound, q, now, Some(i));
        } else {
          SaveAgrees(p, c, bind, i);
          OneMove(p, q, now, Some(i));
        }
      } else {
        var seen := p.(mem := m);
        QuietMove(p, m, now, Some(i));
        MoveKeeps(p, seen, now, Some(i));
        BeginSubmitMove(seen, i, inc, t.waitingReason, now, o);
        TwoMoves(p, seen, q, now, Some(i));
      }
    }
  }

  lemma CommittedInv(p: Proc)
    requires Coherent(p)
    ensures Inv(p.committed)
  {
  }

  lemma BeforeDeliveryMove(p: Proc, i: nat, t: Target, now: int, o: Saving)
    requires Coherent(p) && i < |p.mem.messages|
    ensures Move(p, BeforeDelivery(p, i, t, o).0, now, None)
  {
    hide Inv, Evolves, Ahead, Legal, Save, Resolve;
    var e := p.mem.messages[i];
    Stay(p, now, None);
    MemInv(p);
    UnsentNotStarted(p, i);
    if !p.closing && e.state.Dispatching? {
      if e.kind.QuestionAnswer? {
        ReplaceLegal(p.mem, i, e.(started := true), now, false);
        AheadSelf(p.mem);
        ObserveThenSave(p, p.mem, Replace(p.mem, i, e.(started := true)), now, None, o);
      } else if t.Found? {
        var m := Resolve(p.mem, e.tab, t);
        ResolveAhead(p.mem, e.tab, t);
        QuietMove(p, m, now, None);
        AheadInv(p.mem, m);
        ReplaceLegal(m, i, e.(started := true), now, false);
        ObserveThenSave(p, m, Replace(m, i, e.(started := true)), now, None, o);
      }
    }
  }

  lemma SubmitFailedMove(p: Proc, i: nat, f: Failure, now: int, o: Saving)
    requires Coherent(p) && Earlier(p.mem, now) && i < |p.mem.messages| && p.mem.messages[i].kind.Message?
    ensures Move(p, SubmitFailed(p, i, f, now, o), now, Some(i))
  {
    hide Inv, Evolves, Ahead, Legal, Save, Coherent, Move, Change;
    var live := p.mem.messages[i];
    UnsentNotStarted(p, i);
    if live.state.Terminal() {
      Stay(p, now, Some(i));
    } else {
      var (attempts, state, reason) := AfterFailure(live, f);
      TouchChangeMove(p, i, live.(attempts := attempts), state, reason, now, o);
    }
  }

  lemma SubmitReturnedMove(p: Proc, i: nat, now: int, o: Saving)
    requires Coherent(p) && Earlier(p.mem, now) && i < |p.mem.messages| && p.mem.messages[i].kind.Message?
    ensures Move(p, SubmitReturned(p, i, now, o), now, None)
  {
    hide Inv, Evolves, Ahead, Legal, Save;
    UnsentNotStarted(p, i);
    Stay(p, now, None);
    if p.mem.messages[i].state.Dispatching? {
      ChangeMove(p, i, Accepted, NoNote, now, o, false);
    }
  }

  lemma MarkReadMove(p: Proc, i: nat, recovering: bool, current: int, now: int)
    requires i < |p.mem.messages|
    ensures Move(p, MarkRead(p, i, recovering, current), now, None)
  {
    hide Inv, Evolves, Ahead, Legal, Save;
    Stay(p, now, None);
    var e := p.mem.messages[i];
    TouchAhead(p.mem, i, e.(recoveryCheckedAt := Some(current)));
    QuietMove(p, Replace(p.mem, i, e.(recoveryCheckedAt := Some(current))), now, None);
  }

  lemma CommitProofMove(p: Proc, i: nat, seen: (State, int), proof: Proof, liveness: Liveness, restarting: bool,
                        now: int, o: Saving)
    requires Coherent(p) && Earlier(p.mem, now) && i < |p.mem.messages| && p.mem.messages[i].kind.Message?
    requires seen.0.InFlight() && !(p.mem.messages[i].scheduled && seen.0.Uncertain?)
    ensures Move(p, CommitProof(p, i, seen, proof, liveness, restarting, now, o), now, None)
  {
    hide Inv, Evolves, Ahead, Legal, Save, Coherent, Move, Change;
    var e := p.mem.messages[i];
    UnsentNotStarted(p, i);
    Stay(p, now, None);
    if (e.state, e.updatedAt) == seen {
      var v := Verdict(e, proof, liveness, restarting, now);
      if v.Some? { ChangeMove(p, i, v.value.0, v.value.1, now, o, false); }
    }
  }

  lemma QuestionStateMove(p: Proc, ref: string, state: QuestionState, now: int, o: Saving)
    requires Coherent(p) && !state.Open? && !state.Claimed?
    requires state.Doubtful? ==>
             exists i :: 0 <= i < |p.mem.messages| && p.mem.messages[i].kind.QuestionAnswer?
                         && p.mem.messages[i].questionRef == ref
    ensures Move(p, SetState(p, ref, state, o), now, None)
  {
    hide Evolves, Ahead, Legal, Save, FirstQuestion;
    Stay(p, now, None);
    MemInv(p);
    var k := FirstQuestion(p.mem.questions, ref);
    if k < |p.mem.questions| {
      var q := p.mem.questions[k];
      if state.Doubtful? {
        var i :| 0 <= i < |p.mem.messages| && p.mem.messages[i].kind.QuestionAnswer?
          && p.mem.messages[i].questionRef == ref;
        assert Answers(q, p.mem.messages[i]);
      }
      SetQuestionLegal(p.mem, k, q.(state := state), now);
      AheadSelf(p.mem);
      ObserveThenSave(p, p.mem, SetQuestion(p.mem, k, q.(state := state)), now, None, o);
    }
  }

  /** A saved change of an answer leaves it where it was, of the same question. */
  lemma ChangedInPlace(p: Proc, i: nat, s: State, reason: Note, now: int, o: Saving)
    requires i < |p.mem.messages| && Changed(p, o)
    ensures Change(p, i, s, reason, now, o).mem == Replace(p.mem, i, Stamp(p.mem.messages[i], s, reason, now))
  {
  }

  lemma RecoverAnswerMoves(p: Proc, i: nat, now: int, o: Saving, o2: Saving)
    requires Coherent(p) && Earlier(p.mem, now) && i < |p.mem.messages|
    ensures Moves(p, RecoverAnswer(p, i, now, o, o2), now, None)
  {
    hide Inv, Evolves, Ahead, Legal, Save, Move, SetState, Change;
    var e := p.mem.messages[i];
    var q := RecoverAnswer(p, i, now, o, o2);
    UnsentNotStarted(p, i);
    Stay(p, now, None);
    if e.kind.QuestionAnswer? && (e.state.Dispatching? || e.state.Accepted?) {
      if !e.started {
        ChangeMove(p, i, Queued, RecoveredAnswer, now, o, false);
        OneMove(p, q, now, None);
      } else {
        ChangeMove(p, i, Uncertain, AnswerUnreconciled, now, o, false);
        var r := Change(p, i, Uncertain, AnswerUnreconciled, now, o);
        MoveKeeps(p, r, now, None);
        if Changed(p, o) {
          ChangedInPlace(p, i, Uncertain, AnswerUnreconciled, now, o);
          assert r.mem.messages[i].kind.QuestionAnswer? && r.mem.messages[i].questionRef == e.questionRef;
          QuestionStateMove(r, e.questionRef, Doubtful, now, o2);
          TwoMoves(p, r, q, now, None);
        } else {
          OneMove(p, q, now, None);
        }
      }
    } else {
      OneMove(p, q, now, None);
    }
  }

  lemma AnswerBeginMove(p: Proc, i: nat, now: int, o: Saving)
    requires Coherent(p) && Earlier(p.mem, now) && i < |p.mem.messages| && p.mem.messages[i].kind.QuestionAnswer?
    ensures Move(p, AnswerBegin(p, i, now, o).0, now, None)
  {
    hide Inv, Evolves, Ahead, Legal, Save;
    UnsentNotStarted(p, i);
    Stay(p, now, None);
    if p.mem.messages[i].state.Unsent() { ChangeMove(p, i, Dispatching, NoNote, now, o, false); }
  }

  lemma AnswerEndMoves(p: Proc, i: nat, outcome: AnswerOutcome, now: int, o: Saving, o2: Saving)
    requires Coherent(p) && Earlier(p.mem, now) && i < |p.mem.messages| && p.mem.messages[i].kind.QuestionAnswer?
    ensures Moves(p, AnswerEnd(p, i, outcome, now, o, o2), now, None)
  {
    hide Inv, Evolves, Ahead, Legal, Save, Move, SetState, Change;
    var e := p.mem.messages[i];
    var q := AnswerEnd(p, i, outcome, now, o, o2);
    var (state, reason) := AnswerState(e, outcome);
    UnsentNotStarted(p, i);
    ChangeMove(p, i, state, reason, now, o, false);
    var r := Change(p, i, state, reason, now, o);
    MoveKeeps(p, r, now, None);
    if Changed(p, o) && !state.Waiting? {
      ChangedInPlace(p, i, state, reason, now, o);
      assert r.mem.messages[i].kind.QuestionAnswer? && r.mem.messages[i].questionRef == e.questionRef;
      QuestionStateMove(r, e.questionRef, SettledAs(state), now, o2);
      TwoMoves(p, r, q, now, None);
    } else {
      OneMove(p, q, now, None);
    }
  }

  lemma ClaimAnswerMove(p: Proc, ref: string, principal: string, call: AnswerCall, callback: Option<(string, string)>,
                        id: string, limits: Limits, now: int, o: Saving)
    requires Coherent(p) && First(p.mem.messages, ById(id)) == |p.mem.messages|
    ensures Move(p, ClaimAnswer(p, ref, principal, call, callback, id, limits, now, o).0, now, None)
  {
    hide Inv, Evolves, Ahead, Legal, Save, First, FirstQuestion, MaxSequence, AnswerBlocking, AnswerBytes;
    var q := ClaimAnswer(p, ref, principal, call, callback, id, limits, now, o).0;
    Stay(p, now, None);
    if q != p {
      MemInv(p);
      var k := FirstQuestion(p.mem.questions, ref);
      var e := NewAnswer(p.mem, p.mem.questions[k], principal, call, id, now);
      ClaimLegal(p.mem, k, e, callback, now);
      AheadSelf(p.mem);
      ObserveThenSave(p, p.mem, Claim(p.mem, k, e, callback), now, None, o);
    }
  }

  // ------------------------------------------------------------------ expiry

  lemma ExpireLegal(s: Store, now: int)
    requires Inv(s)
    ensures Legal(s, ExpireStore(s, now), now, None)
  {
    hide First, MaxSequence;
    var b := ExpireStore(s, now);
    var ms, ns, qs, rs := s.messages, b.messages, s.questions, b.questions;
    assert forall i | 0 <= i < |ms| :: ns[i] == Expire(ms[i], now);
    assert forall k | 0 <= k < |qs| :: rs[k] == qs[k] || rs[k] == qs[k].Faded();
    ExpireWellFormed(s, now);
    ExpireMessages(ms, ns, now);
    forall k, i | 0 <= k < |rs| && 0 <= i < |ns| ensures Answers(rs[k], ns[i]) { assert Answers(qs[k], ms[i]); }
    forall k | 0 <= k < |rs| ensures OpenUnclaimed(rs[k]) { assert OpenUnclaimed(qs[k]); }
  }

  lemma ExpireMessages(ms: seq<Envelope>, ns: seq<Envelope>, now: int)
    requires AllSound(ms) && AllCompatible(ms) && |ns| == |ms|
    requires forall i | 0 <= i < |ms| :: ns[i] == Expire(ms[i], now)
    ensures AllSound(ns) && AllCompatible(ns) && MessagesFollow(ms, ns) && AllStep(ms, ns, now, None)
  {
    forall i | 0 <= i < |ns| ensures Sound(ns[i]) { assert Sound(ms[i]); }
    forall i, j | 0 <= i < j < |ns| ensures Compatible(ns[i], ns[j]) { assert Compatible(ms[i], ms[j]); }
  }

  lemma ExpireWellFormed(s: Store, now: int)
    requires WellFormed(s)
    ensures WellFormed(ExpireStore(s, now))
  {
    var b := ExpireStore(s, now);
    var mid := s.(messages := b.messages);
    assert forall i | 0 <= i < |s.messages| :: b.messages[i] == Expire(s.messages[i], now);
    SameLookups(s, mid);
    forall k | 0 <= k < |b.questions| ensures Owned(b.messages, b.questions[k]) {
      assert Owned(mid.messages, mid.questions[k]);
    }
    forall i | 0 <= i < |b.messages| ensures Targeted(b.questions, b.messages[i]) {
      assert Targeted(mid.questions, mid.messages[i]);
      if b.messages[i].kind.QuestionAnswer? {
        var k :| 0 <= k < |mid.questions| && mid.questions[k].ref == b.messages[i].questionRef;
        assert b.questions[k].ref == b.messages[i].questionRef;
      }
    }
  }

  lemma ExpirePassMove(p: Proc, now: int, o: Saving)
    requires Coherent(p)
    ensures Move(p, ExpirePass(p, now, o), now, None)
  {
    hide Inv, Evolves, Ahead, Legal, Save, ExpireStore;
    Stay(p, now, None);
    MemInv(p);
    ExpireLegal(p.mem, now);
    AheadSelf(p.mem);
    ObserveThenSave(p, p.mem, ExpireStore(p.mem, now), now, None, o);
  }
}
