/** Over whole runs: one intent per call id, one answer per question, and no verdict on an envelope
    that moved while its evidence was being read. */
module InboxCalls {
  import opened Options
  import opened ChatMessage
  import opened InboxStore
  import opened InboxEvolution
  import opened InboxOps
  import opened InboxMoves
  import opened InboxProtocol
  import opened InboxSafety
  import opened InboxSteps
  import opened InboxRuns

  // ------------------------------------------------------------------ call ids

  /** The memory, the last saved payload and the file of a world. */
  ghost predicate IsStoreOf(w: World, s: Store) {
    s == w.p.mem || s == w.p.committed || s == w.p.disk
  }

  lemma StoresAreSound(ws: seq<World>, k: nat, s: Store)
    requires Run(ws) && k < |ws| && IsStoreOf(ws[k], s)
    ensures Inv(s)
  {
    hide Starts, Linked;
    RunIsSafe(ws, k);
    MemInv(ws[k].p);
  }

  /** At no time, in memory or in a file, are there two direct messages of one caller, tab, incarnation
      and call id; the second was never admitted. */
  lemma OneIntentPerCall(ws: seq<World>, k: nat, s: Store, a: nat, b: nat)
    requires Run(ws) && k < |ws| && IsStoreOf(ws[k], s) && a < b < |s.messages|
    ensures !SameCall(s.messages[a], s.messages[b])
  {
    StoresAreSound(ws, k, s);
    assert Compatible(s.messages[a], s.messages[b]);
  }

  /** A repeated send under the call id of entry `n` finds that entry, or an earlier one of the scheduler's
      that has come to bear the same four names. */
  lemma FindsTheFirst(s: Store, n: nat)
    requires Inv(s) && n < |s.messages| && s.messages[n].Direct()
    ensures var e := s.messages[n];
            var q := ByCall(e.principal, e.tab, e.incarnation, e.callId);
            First(s.messages, q) <= n && (First(s.messages, q) < n ==> s.messages[First(s.messages, q)].scheduled)
  {
    var e := s.messages[n];
    var q := ByCall(e.principal, e.tab, e.incarnation, e.callId);
    assert q.Hit(e);
    var k := First(s.messages, q);
    if k < n {
      assert Compatible(s.messages[k], s.messages[n]) && q.Hit(s.messages[k]);
    }
  }

  /** What a send is answered that finds its call id at an entry. */
  function Replayed(e: Envelope, fingerprint: string): Reply {
    if e.fingerprint != fingerprint then Refused(409) else if e.expired then Refused(410) else Receipt(e)
  }

  /** Once a direct message was saved, a send with its call id never makes a second one, however much
      later and after whatever crashes: the same payload gets that message's receipt, or 410 when it has
      expired, and another payload gets 409.  Only if the caller goes by the scheduler's name can an entry of
      the scheduler's be found instead. */
  lemma ReplayIsSettled(ws: seq<World>, i: nat, j: nat, n: nat, call: Call, id: string, t: Target, limits: Limits,
                        now: int, o: Saving)
    requires Run(ws) && i <= j < |ws| && n < |ws[i].p.committed.messages|
    requires ws[i].p.committed.messages[n].Direct() && call.callId == ws[i].p.committed.messages[n].callId
    requires !ws[j].p.closing && t.Found?
    requires var e := ws[i].p.committed.messages[n];
             Incarnate(Resolve(ws[j].p.mem, e.tab, t), e.tab, t) == e.incarnation
    ensures var e, p := ws[i].p.committed.messages[n], ws[j].p;
            var r := Enqueue(p, e.tab, e.principal, call, id, t, limits, now, o);
            var k := First(p.mem.messages, ByCall(e.principal, e.tab, e.incarnation, e.callId));
            && r.0 == p.(mem := Resolve(p.mem, e.tab, t)) && r.0.mem.messages == p.mem.messages
            && n < |p.mem.messages| && p.mem.messages[n].id == e.id && p.mem.messages[n].fingerprint == e.fingerprint
            && k <= n && r.1 == Replayed(p.mem.messages[k], call.fingerprint)
            && (k < n ==> p.mem.messages[k].scheduled && p.mem.messages[k].principal == e.principal)
  {
    hide Starts, Linked, Safe, Inv, CountBlocking, BlockingBytes, Resolve;
    var e, p := ws[i].p.committed.messages[n], ws[j].p;
    EverythingFollows(ws, i, j);
    assert Follows(e, p.mem.messages[n]);
    StoresAreSound(ws, j, p.mem);
    ResolveAhead(p.mem, e.tab, t);
    FindsTheFirst(p.mem, n);
  }

  /** Expiry leaves the tombstone: an expired message is still there, under its call id, for ever. */
  lemma TombstonesStay(ws: seq<World>, i: nat, j: nat, n: nat)
    requires Run(ws) && i <= j < |ws| && n < |ws[i].p.committed.messages| && ws[i].p.committed.messages[n].expired
    ensures n < |ws[j].p.mem.messages| && n < |ws[j].p.disk.messages|
    ensures ws[j].p.mem.messages[n].expired && ws[j].p.disk.messages[n].expired
    ensures SameIdentity(ws[i].p.committed.messages[n], ws[j].p.mem.messages[n])
    ensures SameIdentity(ws[i].p.committed.messages[n], ws[j].p.disk.messages[n])
  {
    hide Starts, Linked, Run, Inv;
    EverythingFollows(ws, i, j);
    assert Follows(ws[i].p.committed.messages[n], ws[j].p.mem.messages[n]);
    assert Follows(ws[i].p.committed.messages[n], ws[j].p.disk.messages[n]);
  }

  /** A receipt for a new message: it is queued behind everything else, saved in memory, payload and file
      alike, and with it the tab is within both limits. */
  lemma AdmissionIsSavedAndBounded(p: Proc, tab: string, principal: string, call: Call, id: string, t: Target,
                                   limits: Limits, now: int, o: Saving)
    requires Enqueue(p, tab, principal, call, id, t, limits, now, o).1.Receipt?
    requires |Enqueue(p, tab, principal, call, id, t, limits, now, o).0.mem.messages| > |p.mem.messages|
    ensures var (q, r) := Enqueue(p, tab, principal, call, id, t, limits, now, o);
            && q.mem == q.committed == q.disk && !q.closing
            && q.mem.messages == p.mem.messages + [r.envelope]
            && r.envelope.id == id && r.envelope.state.Queued? && r.envelope.Direct()
            && (forall j | 0 <= j < |p.mem.messages| :: p.mem.messages[j].sequence < r.envelope.sequence)
            && CountBlocking(q.mem.messages, tab) == CountBlocking(p.mem.messages, tab) + 1 <= limits.maxPending
            && BlockingBytes(q.mem.messages, tab) == BlockingBytes(p.mem.messages, tab) + |call.body| <= limits.maxBytes
  {
    hide First;
    ResolveAhead(p.mem, tab, t);
    var (q, r) := Enqueue(p, tab, principal, call, id, t, limits, now, o);
    assert q.mem.messages[..|p.mem.messages|] == p.mem.messages;
  }

  // ------------------------------------------------------------------ questions

  /** Two answers to one question are one envelope. */
  lemma OneAnswerPerQuestion(ws: seq<World>, k: nat, s: Store, a: nat, b: nat)
    requires Run(ws) && k < |ws| && IsStoreOf(ws[k], s) && a < |s.messages| && b < |s.messages|
    requires s.messages[a].kind.QuestionAnswer? && s.messages[b].kind.QuestionAnswer?
    requires s.messages[a].questionRef == s.messages[b].questionRef
    ensures a == b
  {
    StoresAreSound(ws, k, s);
    AnswersCoincide(s, a, b);
  }

  lemma AnswersCoincide(s: Store, a: nat, b: nat)
    requires Inv(s) && a < |s.messages| && b < |s.messages|
    requires s.messages[a].kind.QuestionAnswer? && s.messages[b].kind.QuestionAnswer?
    requires s.messages[a].questionRef == s.messages[b].questionRef
    ensures a == b
  {
    assert Targeted(s.questions, s.messages[a]);
    var k :| 0 <= k < |s.questions| && s.questions[k].ref == s.messages[a].questionRef;
    assert Answers(s.questions[k], s.messages[a]) && Answers(s.questions[k], s.messages[b]);
  }

  /** A question names an answer exactly when one is stored for it, and then it names that one. */
  lemma NamesItsAnswer(ws: seq<World>, k: nat, s: Store, q: nat, n: nat)
    requires Run(ws) && k < |ws| && IsStoreOf(ws[k], s) && q < |s.questions| && n < |s.messages|
    ensures s.messages[n].kind.QuestionAnswer? && s.messages[n].questionRef == s.questions[q].ref
            ==> s.questions[q].answerId == Some(s.messages[n].id) && !s.questions[q].state.Open?
    ensures s.questions[q].answerId.Some? ==>
              exists m :: 0 <= m < |s.messages| && s.messages[m].id == s.questions[q].answerId.value
                          && s.messages[m].questionRef == s.questions[q].ref
  {
    StoresAreSound(ws, k, s);
    assert Answers(s.questions[q], s.messages[n]) && OpenUnclaimed(s.questions[q]) && Owned(s.messages, s.questions[q]);
  }

  /** A claim is for ever: the question keeps its answer and never opens again, so no second claim of it
      can succeed, in this process or a later one. */
  lemma ClaimedOnce(ws: seq<World>, i: nat, j: nat, k: nat, principal: string, call: AnswerCall,
                    callback: Option<(string, string)>, id: string, limits: Limits, now: int, o: Saving)
    requires Run(ws) && i <= j < |ws| && k < |ws[i].p.committed.questions|
             && ws[i].p.committed.questions[k].answerId.Some?
    ensures forall s | IsStoreOf(ws[j], s) ::
              k < |s.questions| && s.questions[k].ref == ws[i].p.committed.questions[k].ref
              && s.questions[k].answerId == ws[i].p.committed.questions[k].answerId && !s.questions[k].state.Open?
    ensures ClaimAnswer(ws[j].p, ws[i].p.committed.questions[k].ref, principal, call, callback, id, limits, now, o).0
            == ws[j].p
  {
    hide Starts, Linked, Inv, Safe, AnswerBlocking, AnswerBytes;
    var q, p := ws[i].p.committed.questions[k], ws[j].p;
    EverythingFollows(ws, i, j);
    StoresAreSound(ws, i, ws[i].p.committed);
    NamedIsNotOpen(ws[i].p.committed, k);
    forall s | IsStoreOf(ws[j], s)
      ensures k < |s.questions| && s.questions[k].ref == q.ref && s.questions[k].answerId == q.answerId
              && !s.questions[k].state.Open?
    {
      assert QuestionFollows(q, s.questions[k]);
    }
    assert IsStoreOf(ws[j], p.mem);
    StoresAreSound(ws, j, p.mem);
    FoundAt(p.mem, k);
  }

  lemma FoundAt(s: Store, k: nat)
    requires Inv(s) && k < |s.questions|
    ensures FirstQuestion(s.questions, s.questions[k].ref) == k
  {
  }

  lemma NamedIsNotOpen(s: Store, k: nat)
    requires Inv(s) && k < |s.questions| && s.questions[k].answerId.Some?
    ensures !s.questions[k].state.Open?
  {
    assert OpenUnclaimed(s.questions[k]);
  }

  /** A callback receipt is for ever, and the answer it names is stored, in memory and in every file. */
  lemma ReceiptsStay(ws: seq<World>, i: nat, j: nat, key: string, s: Store)
    requires Run(ws) && i <= j < |ws| && key in ws[i].p.committed.receipts && IsStoreOf(ws[j], s)
    ensures key in s.receipts && s.receipts[key] == ws[i].p.committed.receipts[key]
    ensures Named(s.messages, s.receipts[key].answerId)
  {
    hide Starts, Linked;
    EverythingFollows(ws, i, j);
    StoresAreSound(ws, j, s);
  }

  /** What the end of `answer_submit` leaves when its saves end as `o` and `o2` say; `k` is the question. */
  ghost predicate AnswerEnded(p: Proc, q: Proc, i: nat, k: nat, outcome: AnswerOutcome, o: Saving, o2: Saving)
    requires i < |p.mem.messages| && k < |p.mem.questions|
  {
    && (!o.SaveOk? ==> q.closing && q.mem == q.committed == p.committed)
    && (o.SaveOk? ==>
          && |q.mem.messages| == |p.mem.messages| && q.mem.messages == p.mem.messages[i := q.mem.messages[i]]
          && q.mem == q.committed
          && var e, s := p.mem.messages[i], q.mem.messages[i].state;
             && (s.Completed? <==> outcome.Delivered?)
             && (s.Uncertain? <==> e.started && !outcome.Delivered?)
             && (s.Waiting? <==> !e.started && outcome.Busy?)
             && (s.Failed? <==> !e.started && outcome.AnswerFailure?)
             && (q.closing <==> !s.Waiting? && !o2.SaveOk?)
             && |q.mem.questions| == |p.mem.questions|
             && q.mem.questions == p.mem.questions[k := q.mem.questions[k]]
             && var r := q.mem.questions[k];
                if s.Waiting? || !o2.SaveOk? then r == p.mem.questions[k]
                else
                  && r == p.mem.questions[k].(state := r.state)
                  && (r.state.Resolved? <==> s.Completed?) && (r.state.Doubtful? <==> s.Uncertain?)
                  && (r.state.Stale? <==> s.Failed?))
  }

  lemma AnswerEndsSo(p: Proc, i: nat, outcome: AnswerOutcome, now: int, o: Saving, o2: Saving)
    requires Coherent(p) && Earlier(p.mem, now) && !p.closing
    requires i < |p.mem.messages| && p.mem.messages[i].kind.QuestionAnswer?
    requires FirstQuestion(p.mem.questions, p.mem.messages[i].questionRef) < |p.mem.questions|
    ensures AnswerEnded(p, AnswerEnd(p, i, outcome, now, o, o2), i,
                        FirstQuestion(p.mem.questions, p.mem.messages[i].questionRef), outcome, o, o2)
  {
    hide Inv, Evolves, Restore, FirstQuestion, Move, Coherent, Save;
    var e := p.mem.messages[i];
    var (state, reason) := AnswerState(e, outcome);
    var m := Replace(p.mem, i, Stamp(e, state, reason, now));
    CommittedInv(p);
    UnsentNotStarted(p, i);
    SaveOutcome(p.(mem := m), o);
    ChangeMove(p, i, state, reason, now, o, false);
    var r := Change(p, i, state, reason, now, o);
    MoveKeeps(p, r, now, None);
    if o.SaveOk? && !state.Waiting? {
      CommittedInv(r);
      var k := FirstQuestion(r.mem.questions, e.questionRef);
      SaveOutcome(r.(mem := SetQuestion(r.mem, k, r.mem.questions[k].(state := SettledAs(state)))), o2);
    }
  }

  /** When the submission of an answer ends, the one question it answers ends up as the answer did:
      resolved with a completed answer, stale with a failed one, uncertain with one that may have been
      delivered; an answer that must wait leaves it claimed.  The two are saved one after the other: if the
      first save fails both are as they were saved last, and if the second fails the answer has ended and
      the question is still as it was. */
  lemma AnswerSettlesItsQuestion(ws: seq<World>, j: nat, i: nat, outcome: AnswerOutcome, now: int, o: Saving,
                                 o2: Saving)
    requires Run(ws) && j < |ws| && !ws[j].p.closing && now > ws[j].clock
    requires i < |ws[j].p.mem.messages| && ws[j].p.mem.messages[i].kind.QuestionAnswer?
    ensures var p, e := ws[j].p, ws[j].p.mem.messages[i];
            var k := FirstQuestion(p.mem.questions, e.questionRef);
            && k < |p.mem.questions| && p.mem.questions[k].answerId == Some(e.id)
            && AnswerEnded(p, AnswerEnd(p, i, outcome, now, o, o2), i, k, outcome, o, o2)
  {
    hide Starts, Linked, Run, FirstQuestion, Inv, Safe, AnswerEnded, AnswerEnd;
    StoresAreSound(ws, j, ws[j].p.mem);
    RunIsSafe(ws, j);
    SafeCoherent(ws[j]);
    MemEarlier(ws[j], now);
    HasItsQuestion(ws[j].p.mem, i);
    AnswerEndsSo(ws[j].p, i, outcome, now, o, o2);
  }

  lemma HasItsQuestion(s: Store, i: nat)
    requires Inv(s) && i < |s.messages| && s.messages[i].kind.QuestionAnswer?
    ensures var k := FirstQuestion(s.questions, s.messages[i].questionRef);
            k < |s.questions| && s.questions[k].answerId == Some(s.messages[i].id)
  {
    assert Targeted(s.questions, s.messages[i]);
    var k := FirstQuestion(s.questions, s.messages[i].questionRef);
    assert Answers(s.questions[k], s.messages[i]);
  }

  // ------------------------------------------------------------------ cancellation and completion

  /** A message that is finished without having been submitted is never submitted. */
  lemma FinishedUnsentIsNeverSent(ws: seq<World>, i: nat, j: nat, n: nat)
    requires Run(ws) && i <= j < |ws| && n < |ws[i].p.committed.messages|
    requires var e := ws[i].p.committed.messages[n]; e.kind.Message? && e.state.Terminal() && !e.started
    ensures Uncontacted(ws[j].contacts, n)
  {
    hide Starts, Linked, Run, Inv;
    CommittedOnlyEvolves(ws, i, j);
    RunIsSafe(ws, j);
    assert Follows(ws[i].p.committed.messages[n], ws[j].p.committed.messages[n]);
    forall k | 0 <= k < |ws[j].contacts| ensures ws[j].contacts[k].i != n {
      assert ContactOk(ws[j].p.committed, ws[j].front, ws[j].contacts[k]);
    }
  }

  /** A receipt from `cancel` means that the message is cancelled in the memory, the saved payload and the
      file; and one that was still queued or waiting had not been submitted, so it never is. */
  lemma CancelIsDurable(ws: seq<World>, i: nat, tab: string, id: string, principal: string, now: int, o: Saving)
    requires Run(ws) && i < |ws| && Cancel(ws[i].p, tab, id, principal, now, o).1.Receipt?
    ensures var p, q := ws[i].p, Cancel(ws[i].p, tab, id, principal, now, o).0;
            var n := First(p.mem.messages, ById(id));
            && n < |q.mem.messages| == |q.committed.messages| == |p.mem.messages|
            && q.mem.messages[n].id == id && q.mem.messages[n].principal == principal && q.mem.messages[n].tab == tab
            && q.mem.messages[n].state.Cancelled? && q.committed.messages[n].state.Cancelled?
            && (p.mem.messages[n].state.Unsent() ==> q.disk == q.mem && !q.committed.messages[n].started)
            && (forall k | 0 <= k < |p.mem.messages| && k != n :: q.mem.messages[k] == p.mem.messages[k])
  {
    hide Starts, Linked, Run, Restore;
    var p := ws[i].p;
    var n := First(p.mem.messages, ById(id));
    RunIsSafe(ws, i);
    MemLike(ws[i], n);
  }

  /** A finished turn ends the first message that blocks under it, and no other; with none it does nothing.  The
      message is completed or cancelled exactly by the statuses named for it, and failed by any other.
      If that cannot be saved, the inbox is back at what was saved last, and closing. */
  lemma TurnEndsOneMessage(p: Proc, tab: string, turn: string, status: string, now: int, o: Saving)
    requires Coherent(p) && !p.closing
    ensures var q, k := TurnCompleted(p, tab, turn, status, now, o), First(p.mem.messages, ByTurn(tab, turn));
            && (k == |p.mem.messages| ==> q == p)
            && (k < |p.mem.messages| && !o.SaveOk? ==> q.closing && q.mem == q.committed == p.committed)
            && (k < |p.mem.messages| && o.SaveOk? ==>
                  && q.mem == q.committed == q.disk && q.mem.messages == p.mem.messages[k := q.mem.messages[k]]
                  && p.mem.messages[k].tab == tab && p.mem.messages[k].turn == turn && p.mem.messages[k].Blocks()
                  && q.mem.messages[k].state.Terminal() && !q.mem.messages[k].Blocks()
                  && SameIdentity(p.mem.messages[k], q.mem.messages[k]) && q.mem.messages[k].updatedAt == now
                  && (q.mem.messages[k].state.Completed? <==>
                        || status == "completed"
                        || (p.mem.messages[k].scheduled && (status == "success" || status == "ok")))
                  && (q.mem.messages[k].state.Cancelled? <==> status == "cancelled" || status == "canceled"))
  {
    hide Restore, Inv, Evolves;
    var k := First(p.mem.messages, ByTurn(tab, turn));
    if k < |p.mem.messages| {
      var state := TurnState(status, p.mem.messages[k].scheduled);
      CommittedInv(p);
      SaveOutcome(p.(mem := Replace(p.mem, k, Stamp(p.mem.messages[k], state, NoNote, now))), o);
    }
  }

  // ------------------------------------------------------------------ evidence reads

  /** If an entry has the same stamp at two times, it had one state at all times in between. */
  lemma SameStampSameState(ws: seq<World>, i: nat, k: nat, j: nat, n: nat)
    requires Run(ws) && i <= k <= j < |ws| && n < |ws[i].p.mem.messages|
    ensures n < |ws[k].p.mem.messages| && n < |ws[j].p.mem.messages|
    ensures ws[i].p.mem.messages[n].updatedAt == ws[j].p.mem.messages[n].updatedAt ==>
              ws[k].p.mem.messages[n].updatedAt == ws[i].p.mem.messages[n].updatedAt
              && ws[k].p.mem.messages[n].state == ws[i].p.mem.messages[n].state
  {
    hide Safe, Run, Inv, MessagesFollow;
    CommittedOnlyEvolves(ws, i, k);
    CommittedOnlyEvolves(ws, k, j);
    MessagesOnward(ws[i].p.committed, ws[k].p.committed, ws[j].p.committed);
    RunIsSafe(ws, i);
    RunIsSafe(ws, k);
    RunIsSafe(ws, j);
    NoMemory(ws[i]);
    NoMemory(ws[k]);
    NoMemory(ws[j]);
    MemLike(ws[i], n);
    MemLike(ws[k], n);
    MemLike(ws[j], n);
    FollowsAt(ws[i].p.committed, ws[k].p.committed, n);
    FollowsAt(ws[k].p.committed, ws[j].p.committed, n);
  }

  lemma MessagesOnward(a: Store, b: Store, c: Store)
    requires Evolves(a, b) && Evolves(b, c)
    ensures |a.messages| <= |b.messages| <= |c.messages|
  {
  }

  lemma FollowsAt(a: Store, b: Store, n: nat)
    requires Evolves(a, b) && n < |a.messages|
    ensures n < |b.messages| && Follows(a.messages[n], b.messages[n])
  {
  }

  /** Every pending read was begun at some step of the run, and holds what its entry was then. */
  lemma {:induction false} ReadHasBegun(ws: seq<World>, j: nat, r: nat) returns (i: nat)
    requires Run(ws) && j < |ws| && r in ws[j].looks
    ensures i <= j && BegunAt(ws[i], ws[j].looks[r])
  {
    hide Next, Enabled, Typed, BegunAt;
    i := 0;
    if j > 0 {
      assert Linked(ws, j);
      var s, now :| Goes(ws[j - 1], ws[j], s, now);
      if BegunAt(ws[j - 1], ws[j].looks[r]) {
        i := j - 1;
      } else {
        i := ReadHasBegun(ws, j - 1, r);
      }
    }
  }

  /** `reconcile` acts on an entry only if it has not moved since its evidence read began: whatever the
      other tasks did meanwhile, another pass that reads the same entry included, a verdict never overwrites
      one of their transitions. */
  lemma VerdictOnUnmovedEntry(ws: seq<World>, j: nat, r: nat, proof: Proof, liveness: Liveness, restarting: bool,
                              now: int, o: Saving) returns (i: nat)
    requires Run(ws) && j < |ws| && r in ws[j].looks
    ensures i <= j && BegunAt(ws[i], ws[j].looks[r]) && ws[j].looks[r].i < |ws[j].p.mem.messages|
    ensures var n, seen := ws[j].looks[r].i, ws[j].looks[r].seen;
            CommitProof(ws[j].p, n, seen, proof, liveness, restarting, now, o) != ws[j].p ==>
              forall k | i <= k <= j ::
                n < |ws[k].p.mem.messages| && ws[k].p.mem.messages[n].state == ws[i].p.mem.messages[n].state
  {
    hide Run, Change, Verdict, Linked, Starts, Next, Enabled;
    i := ReadHasBegun(ws, j, r);
    var n := ws[j].looks[r].i;
    forall k | i <= k <= j
      ensures n < |ws[j].p.mem.messages|
      ensures ws[i].p.mem.messages[n].updatedAt == ws[j].p.mem.messages[n].updatedAt ==>
                n < |ws[k].p.mem.messages| && ws[k].p.mem.messages[n].state == ws[i].p.mem.messages[n].state
    {
      SameStampSameState(ws, i, k, j, n);
    }
    assert i <= j;
    SameStampSameState(ws, i, j, j, n);
  }
}
