/** What happens between a failed save, or a shutdown, and the next process, or the end of `start` in this
    one: nothing is admitted, acknowledged, dispatched, marked or moved to another state. */
module InboxClosing {
  import opened Options
  import opened ChatMessage
  import opened InboxStore
  import opened InboxEvolution
  import opened InboxOps
  import opened InboxMoves
  import opened InboxProtocol
  import opened InboxSafety
  import opened InboxSteps
  import opened InboxRuns

  ghost predicate Frozen(a: seq<Envelope>, b: seq<Envelope>) {
    && |a| == |b|
    && (forall i {:trigger b[i]} | 0 <= i < |a| :: b[i].state == a[i].state && b[i].started == a[i].started)
  }

  ghost predicate Shut(p: Proc, q: Proc) {
    q.closing && Frozen(p.mem.messages, q.mem.messages)
  }

  /** A late save puts back states that were committed already. */
  lemma LateSave(p: Proc, m: Store, o: Saving)
    requires Coherent(p) && p.closing && Frozen(p.mem.messages, m.messages)
    ensures Shut(p, Save(p.(mem := m), o))
  {
    hide Inv, Evolves, Restore;
    SaveOutcomeOf(p, m, o);
    forall i | 0 <= i < |p.mem.messages|
      ensures p.committed.messages[i].state == p.mem.messages[i].state
              && p.committed.messages[i].started == p.mem.messages[i].started
    {
      assert Durable(p.committed.messages[i]) == Durable(p.mem.messages[i]);
      DurableMeans(p.committed.messages[i], p.mem.messages[i]);
    }
  }

  lemma SaveOutcomeOf(p: Proc, m: Store, o: Saving)
    requires Coherent(p)
    ensures Save(p.(mem := m), o).closing == (p.closing || !o.SaveOk?)
    ensures Save(p.(mem := m), o).mem == if o.SaveOk? then m else p.committed
  {
    SaveOutcome(p.(mem := m), o);
  }

  lemma ClosedBegin(p: Proc, i: nat, inc: Incarnation, waitingReason: string, now: int, o: Saving)
    requires p.closing && i < |p.mem.messages|
    ensures Shut(p, BeginSubmit(p, i, inc, waitingReason, now, o).0)
            && !BeginSubmit(p, i, inc, waitingReason, now, o).1.Sent?
  {
    hide Save;
  }

  lemma ClosedDispatch(p: Proc, i: nat, t: Target, now: int, bind: Saving, o: Saving)
    requires Coherent(p) && p.closing && i < |p.mem.messages|
    ensures Shut(p, Dispatch(p, i, t, now, bind, o).0) && !Dispatch(p, i, t, now, bind, o).1.Sent?
  {
    hide Coherent, Inv, Save, Resolve, BeginSubmit;
    if t.Found? {
      var tab := p.mem.messages[i].tab;
      ResolveAhead(p.mem, tab, t);
      var m := Resolve(p.mem, tab, t);
      var inc := Incarnate(m, tab, t);
      if m.messages[i].scheduled && m.messages[i].incarnation.Unset? {
        var bound := Replace(m, i, m.messages[i].(incarnation := inc));
        LateSave(p, bound, bind);
        ClosedBegin(Save(p.(mem := bound), bind), i, inc, t.waitingReason, now, o);
      } else {
        ClosedBegin(p.(mem := m), i, inc, t.waitingReason, now, o);
      }
    }
  }

  lemma ClosedExpiry(p: Proc, now: int, o: Saving)
    requires Coherent(p) && p.closing
    ensures Shut(p, ExpirePass(p, now, o))
  {
    hide Coherent, Inv, Save, FadeAll;
    LateSave(p, ExpireStore(p.mem, now), o);
  }

  lemma ClosedChanges(p: Proc, id: string, release: bool, tab: string, turn: string, status: string, i: nat, now: int,
                      o: Saving, o2: Saving)
    requires p.closing
    ensures CancelScheduled(p, id, release, now, o).0 == p
    ensures TurnCompleted(p, tab, turn, status, now, o) == p
    ensures i < |p.mem.messages| ==> RecoverAnswer(p, i, now, o, o2) == p
  {
  }

  /** The steps of the surroundings that save the memory, whether the inbox is closing or not. */
  lemma ClosedSaves(w: World, s: Step, now: int)
    requires Coherent(w.p) && w.p.closing && Setting(w, s, now)
    requires s.Flush? || s.Nonces? || s.Ask? || s.Settle?
    ensures Shut(w.p, AroundProc(w, s, now))
  {
    hide Coherent, Inv, Save, FirstQuestion, Setting, NoncesIntact;
    ShutSelf(w.p);
    match s
    case Flush(o) => LateSave(w.p, w.p.mem, o);
    case Nonces(nonces, saves, o) => LateSave(w.p, w.p.mem.(nonces := nonces), o);
    case Ask(q, o) => LateSave(w.p, AddQuestion(w.p.mem, q), o);
    case Settle(ref, state, o) =>
      var k := FirstQuestion(w.p.mem.questions, ref);
      if k < |w.p.mem.questions| { LateSave(w.p, SetQuestion(w.p.mem, k, w.p.mem.questions[k].(state := state)), o); }
  }

  lemma ClosedSurrounding(w: World, s: Step, now: int)
    requires Coherent(w.p) && w.p.closing && Setting(w, s, now)
    ensures Shut(w.p, AroundProc(w, s, now))
  {
    hide Coherent, Inv, Save, Resolve, ExpirePass, FirstQuestion, Restore, CancelScheduled, TurnCompleted,
         RecoverAnswer, Evolves, NoncesIntact, Recovery, SetState, AddQuestion;
    ShutSelf(w.p);
    match s
    case WithdrawScheduled(id, release, o) => ClosedChanges(w.p, id, release, "", "", "", 0, now, o, o);
    case TurnEnds(tab, turn, status, o) => ClosedChanges(w.p, "", false, tab, turn, status, 0, now, o, o);
    case AnswerRecovered(i, o, o2) => ClosedChanges(w.p, "", false, "", "", "", i, now, o, o2);
    case Expiry(o) => ClosedExpiry(w.p, now, o);
    case Observe(tab, t) => if t.Found? { ResolveAhead(w.p.mem, tab, t); }
    case Flush(_) => ClosedSaves(w, s, now);
    case Nonces(_, _, _) => ClosedSaves(w, s, now);
    case Ask(_, _) => ClosedSaves(w, s, now);
    case Settle(_, _, _) => ClosedSaves(w, s, now);
    case _ =>
  }

  lemma ClosedAround(w: World, s: Step, now: int)
    requires Coherent(w.p) && w.p.closing && Setting(w, s, now)
    ensures var v := Around(w, s, now); Shut(w.p, v.p) && v.acked == w.acked && v.front == w.front
  {
    hide AroundProc, Recovery, Setting, Shut, Coherent;
    ClosedSurrounding(w, s, now);
  }

  lemma ClosedResume(p: Proc, i: nat, reason: string, t: Target, now: int, bind: Saving, o: Saving)
    requires Coherent(p) && p.closing && i < |p.mem.messages|
    ensures Shut(p, Resume(p, i, reason, t, now, bind, o).0) && !Resume(p, i, reason, t, now, bind, o).1.Sent?
  {
    hide Coherent, Save, Resolve, Dispatch;
    ClosedDispatch(p, i, t, now, bind, o);
  }

  lemma ClosedPump(w: World, s: Step, now: int)
    requires Coherent(w.p) && w.p.closing && Typed(w) && Enabled(w, s, now) && (s.PumpRuns? || s.PumpResumes?)
    ensures var v := PumpNext(w, s, now); Shut(w.p, v.p) && v.acked == w.acked && v.front == w.front
  {
    hide Coherent, Save, Resolve, Resume, Shut;
    if s.PumpResumes? {
      ClosedResume(w.p, w.pumps[s.tab].i, s.reason, s.t, now, s.bind, s.o);
    } else {
      ShutSelf(w.p);
    }
  }

  lemma ShutSelf(p: Proc)
    requires p.closing
    ensures Shut(p, p)
  {
  }

  lemma ClosedAdmissions(w: World, s: Step, now: int)
    requires w.p.closing && Typed(w) && Enabled(w, s, now) && (s.Send? || s.Admit?)
    ensures var v := CallNext(w, s, now); Shut(w.p, v.p) && v.acked == w.acked && v.front == w.front
  {
    hide Save, Resolve, First, Admissible, CountBlocking, BlockingBytes, Saw;
    if s.Admit? && s.t.Found? { ResolveAhead(w.p.mem, s.item.tab, s.t); }
  }

  lemma ClosedClaims(w: World, s: Step, now: int)
    requires w.p.closing && Typed(w) && Enabled(w, s, now) && (s.Withdraw? || s.ClaimStep?)
    ensures var v := CallNext(w, s, now); Shut(w.p, v.p) && v.acked == w.acked && v.front == w.front
  {
    hide Save, First, FirstQuestion, AnswerBlocking, AnswerBytes;
  }

  lemma ClosedDelivery(w: World, s: Step, now: int)
    requires w.p.closing && Typed(w) && Enabled(w, s, now)
    requires s.PrepareFails? || s.Callback? || s.ReachProvider? || s.SubmitFails? || s.SubmitReturns?
    ensures var v := PumpNext(w, s, now); Shut(w.p, v.p) && v.acked == w.acked && v.front == w.front
  {
    hide Save, Resolve, First, FirstQuestion, Admissible, AfterFailure, ReadsEvidence;
  }

  lemma ClosedAnswers(w: World, s: Step, now: int)
    requires w.p.closing && Typed(w) && Enabled(w, s, now) && (s.AnswerBegins? || s.AnswerCallback?)
    ensures var v := AnswerNext(w, s, now); Shut(w.p, v.p) && v.acked == w.acked && v.front == w.front
  {
    hide Save, Resolve;
  }

  lemma ClosedAnswerEnds(w: World, s: Step, now: int)
    requires w.p.closing && Typed(w) && Enabled(w, s, now) && (s.AnswerReaches? || s.AnswerEnds?)
    ensures var v := AnswerNext(w, s, now); Shut(w.p, v.p) && v.acked == w.acked && v.front == w.front
  {
    hide Save, FirstQuestion, AnswerState, SetState;
  }

  lemma ClosedReads(w: World, s: Step, now: int)
    requires w.p.closing && Typed(w) && Enabled(w, s, now) && (s.ReadBegins? || s.ReadEnds?)
    ensures var v := ReadNext(w, s, now); Shut(w.p, v.p) && v.acked == w.acked && v.front == w.front
  {
    hide Save, Resolve, First, FirstQuestion, Admissible, Verdict, ReadsEvidence;
  }

  /** While the inbox is closing every call is refused, nothing is dispatched, and no envelope appears,
      is marked started or changes its state; only a new process or the end of `start` opens it again. */
  lemma ClosedUntilRestart(w: World, s: Step, now: int)
    requires Safe(w) && Typed(w) && Enabled(w, s, now) && w.p.closing
    ensures !Next(w, s, now).p.closing <==> s.Crash? || s.StartEnds?
    ensures !s.Crash? && !s.StartEnds? ==>
              var v := Next(w, s, now);
              v.acked == w.acked && v.front == w.front && Frozen(w.p.mem.messages, v.p.mem.messages)
  {
    hide Safe, CallNext, PumpNext, AnswerNext, ReadNext, Enabled, Coherent, Around, Setting, Frozen, Typed;
    SafeCoherent(w);
    if s.Crash? {
      CrashIsSafe(w, now);
    } else if s.StartEnds? {
      StartEndsIsSafe(w, now);
    } else if s.PumpRuns? || s.PumpResumes? {
      ClosedPump(w, s, now);
    } else if Surrounding(s) {
      SettingIsEnabled(w, s, now);
      ClosedAround(w, s, now);
      NextIs(w, s, now);
    } else if s.Send? || s.Admit? {
      ClosedAdmissions(w, s, now);
    } else if s.Withdraw? || s.ClaimStep? {
      ClosedClaims(w, s, now);
    } else if s.ReadBegins? || s.ReadEnds? {
      ClosedReads(w, s, now);
    } else if s.AnswerBegins? || s.AnswerCallback? {
      ClosedAnswers(w, s, now);
    } else if s.AnswerReaches? || s.AnswerEnds? {
      ClosedAnswerEnds(w, s, now);
    } else {
      ClosedDelivery(w, s, now);
    }
  }

  /** The same over runs: from a failed save or a shutdown on, until the next reset, everything stays as it is. */
  lemma {:induction false} ClosedStaysClosed(ws: seq<World>, i: nat, j: nat)
    requires Run(ws) && i <= j < |ws| && ws[i].p.closing && ws[i].resets == ws[j].resets
    ensures ws[j].p.closing && ws[j].acked == ws[i].acked && ws[j].front == ws[i].front
    ensures Frozen(ws[i].p.mem.messages, ws[j].p.mem.messages)
    decreases j - i
  {
    hide Safe, Next, Enabled, Starts, Typed;
    if i < j {
      MemoryFollows(ws, i, j - 1);
      RunIsSafe(ws, j - 1);
      assert Linked(ws, j);
      var s, now :| Goes(ws[j - 1], ws[j], s, now);
      ClosedStaysClosed(ws, i, j - 1);
      ClosedUntilRestart(ws[j - 1], s, now);
    }
  }

  /** In a process whose `start` has not come to its end, that end undoes the closing of a save that failed
      meanwhile: the run goes on with an open inbox over the same memory and file. */
  lemma StartUndoesClosing(ws: seq<World>, now: int)
    requires Run(ws) && ws[|ws| - 1].p.closing && !ws[|ws| - 1].up && now > ws[|ws| - 1].clock
    ensures var w := ws[|ws| - 1];
            && Typed(w) && Enabled(w, StartEnds, now)
            && var v := Next(w, StartEnds, now); Run(ws + [v]) && v.p == w.p.(closing := false) && v.up
  {
    hide Safe, Next, Starts, Linked, Typed;
    RunGoesOn(ws, StartEnds, now);
    RunIsSafe(ws, |ws| - 1);
    StartEndsIsSafe(ws[|ws| - 1], now);
  }
}
