/** The exact effect of what tasks do between two suspension points: turns of a pump, callbacks, ends of turns and
    of answers, and expiry. */
module InboxTurns {
  import opened Options
  import opened ChatMessage
  import opened InboxStore
  import opened InboxEvolution
  import opened InboxOps
  import opened InboxMoves

  /** Everything is saved, and of the entries only `i` has changed. */
  ghost predicate SavedAt(p: Proc, q: Proc, i: nat) {
    && i < |p.mem.messages| == |q.mem.messages| && q == Proc(q.mem, q.mem, q.mem, false)
    && q.mem.messages == p.mem.messages[i := q.mem.messages[i]]
    && q.mem.questions == p.mem.questions && q.mem.receipts == p.mem.receipts && q.mem.nonces == p.mem.nonces
  }

  /** The entry in another state: a waiting one says why, a failed or uncertain one what went wrong. */
  ghost predicate Became(e: Envelope, state: State, why: Note, now: int, f: Envelope) {
    && f == e.(state := state, updatedAt := now, waitingReason := f.waitingReason, error := f.error,
               adopted := f.adopted)
    && f.waitingReason == (if state.Waiting? then why else NoNote)
    && f.error == (if state.Failed? || state.Uncertain? then why else NoNote)
    && (f.adopted <==> e.adopted && !state.Queued? && !state.Waiting?)
  }

  lemma ChangeExactly(p: Proc, i: nat, state: State, why: Note, now: int, o: Saving)
    requires Inv(p.committed) && i < |p.mem.messages|
    ensures var q := Change(p, i, state, why, now, o);
            && (p.closing ==> q == p)
            && (!p.closing && o.SaveOk? ==>
                  && SavedAt(p, q, i) && Became(p.mem.messages[i], state, why, now, q.mem.messages[i])
                  && q.mem == p.mem.(messages := q.mem.messages))
            && (!p.closing && !o.SaveOk? ==> q.closing && q.mem == q.committed == p.committed)
  {
    hide Inv, Restore;
    SaveOutcome(p.(mem := Replace(p.mem, i, Stamp(p.mem.messages[i], state, why, now))), o);
  }

  lemma ChangeSaves(p: Proc, i: nat, state: State, why: Note, now: int)
    requires i < |p.mem.messages| && !p.closing
    ensures var q := Change(p, i, state, why, now, SaveOk);
            && SavedAt(p, q, i) && Became(p.mem.messages[i], state, why, now, q.mem.messages[i])
            && q.mem == p.mem.(messages := q.mem.messages)
  {
  }

  // ------------------------------------------------------------------ the pump

  /** What a turn makes of the message it has picked, with its target `t` and `inc` what the target is by now. */
  ghost predicate Turned(e: Envelope, t: Target, inc: Incarnation, now: int, f: Envelope, turn: Turn, i: nat) {
    if t.NoTarget? then
      turn == Again && Became(e, if t.status == 404 then Cancelled else Failed, Text(t.detail), now, f)
    else
      var bound := if e.scheduled && e.incarnation.Unset? then e.(incarnation := inc) else e;
      if bound.incarnation != inc then turn == Again && Became(bound, Failed, IncarnationChanged, now, f)
      else if t.waitingReason != "" then turn == Idle && Became(bound, Waiting, Text(t.waitingReason), now, f)
      else turn == Sent(i) && Became(bound.(attempts := bound.attempts + 1), Dispatching, NoNote, now, f)
  }

  /** A message whose target is gone is cancelled, one whose target cannot be had is failed; one of another
      incarnation is failed, one whose target is not ready waits, and any other is dispatched with one attempt more;
      a scheduled one without an incarnation takes that of the target. */
  lemma DispatchExactly(p: Proc, i: nat, t: Target, now: int)
    requires i < |p.mem.messages| && !p.closing
    ensures var e, (q, turn) := p.mem.messages[i], Dispatch(p, i, t, now, SaveOk, SaveOk);
            && SavedAt(p, q, i)
            && Turned(e, t, if t.Found? then Incarnate(Resolve(p.mem, e.tab, t), e.tab, t) else Unset, now,
                      q.mem.messages[i], turn, i)
  {
    hide Restore, Resolve, BeginSubmit, Incarnate;
    var e := p.mem.messages[i];
    if t.Found? {
      ResolveAhead(p.mem, e.tab, t);
      ResolveOnly(p.mem, e.tab, t);
      var m, inc := Resolve(p.mem, e.tab, t), Incarnate(Resolve(p.mem, e.tab, t), e.tab, t);
      if e.scheduled && e.incarnation.Unset? {
        BeginExactly(Save(p.(mem := Replace(m, i, e.(incarnation := inc))), SaveOk), i, inc, t.waitingReason, now);
      } else {
        BeginExactly(p.(mem := m), i, inc, t.waitingReason, now);
      }
    }
  }

  lemma ResolveOnly(s: Store, tab: string, t: Target)
    requires t.Found?
    ensures Resolve(s, tab, t) == s.(epochs := Resolve(s, tab, t).epochs,
                                     conversations := Resolve(s, tab, t).conversations)
  {
  }

  lemma BeginExactly(p: Proc, i: nat, inc: Incarnation, waitingReason: string, now: int)
    requires i < |p.mem.messages| && !p.closing
    ensures var e, (q, turn) := p.mem.messages[i], BeginSubmit(p, i, inc, waitingReason, now, SaveOk);
            && SavedAt(p, q, i) && q.mem == p.mem.(messages := q.mem.messages)
            && (if e.incarnation != inc then
                  turn == Again && Became(e, Failed, IncarnationChanged, now, q.mem.messages[i])
                else if waitingReason != "" then
                  turn == Idle && Became(e, Waiting, Text(waitingReason), now, q.mem.messages[i])
                else
                  && turn == Sent(i)
                  && Became(e.(attempts := e.attempts + 1), Dispatching, NoNote, now, q.mem.messages[i]))
  {
    hide Change, Became;
    var e := p.mem.messages[i];
    ChangeSaves(p, i, Failed, IncarnationChanged, now);
    ChangeSaves(p, i, Waiting, Text(waitingReason), now);
    ChangeSaves(p.(mem := Replace(p.mem, i, e.(attempts := e.attempts + 1))), i, Dispatching, NoNote, now);
  }

  /** The observed target starts a new epoch exactly if another conversation was pinned, and is pinned. */
  lemma ObservedExactly(s: Store, tab: string, t: Target, key: Key)
    requires t.Found?
    ensures var r := Resolve(s, tab, t);
            && r.Epoch(key) == s.Epoch(key)
               + (if key == (tab, t.base) && s.Pinned(key) != "" && s.Pinned(key) != t.conversation then 1 else 0)
            && r.Pinned(key) == if key == (tab, t.base) then t.conversation else s.Pinned(key)
  {
  }

  /** A turn of a pump: nothing if the inbox is closing, nothing blocks the tab or something is in flight there; else
      it is about the first message that blocks the tab, which is prepared if it is scheduled and there is something
      to prepare it, and dispatched otherwise. */
  lemma PumpTurnExactly(p: Proc, tab: string, prepares: bool, t: Target, now: int, bind: Saving, o: Saving)
    ensures var ms, (q, turn) := p.mem.messages, PumpTurn(p, tab, prepares, t, now, bind, o);
            var rests := || p.closing || !(exists j :: OnTab(ms, j, tab))
                         || exists j :: OnTab(ms, j, tab) && ms[j].state.InFlight();
            && (rests ==> q == p && turn == Idle)
            && (!rests ==> exists i ::
                  && OnTab(ms, i, tab) && ms[i].state.Unsent() && (forall j | OnTab(ms, j, tab) :: i <= j)
                  && (if ms[i].scheduled && prepares then q == p && turn == Preparing(i)
                      else (q, turn) == Dispatch(p, i, t, now, bind, o)))
  {
    hide Dispatch;
    var ms, h := p.mem.messages, First(p.mem.messages, HeadOf(tab));
    assert forall j | 0 <= j < |ms| :: HeadOf(tab).Hit(ms[j]) <==> OnTab(ms, j, tab);
    if h < |ms| { assert OnTab(ms, h, tab); }
  }

  /** A message that blocks the tab. */
  predicate OnTab(ms: seq<Envelope>, j: int, tab: string) {
    0 <= j < |ms| && ms[j].tab == tab && ms[j].kind.Message? && ms[j].Blocks()
  }

  /** After its preparation a message that no longer blocks is passed over, one that is told a reason waits for it,
      and any other is dispatched. */
  lemma ResumeExactly(p: Proc, i: nat, reason: string, t: Target, now: int, bind: Saving)
    requires i < |p.mem.messages| && !p.closing
    ensures var e, (q, turn) := p.mem.messages[i], Resume(p, i, reason, t, now, bind, SaveOk);
            && (!e.Blocks() ==> q == p && turn == Again)
            && (e.Blocks() && reason != "" ==>
                  SavedAt(p, q, i) && turn == Idle && Became(e, Waiting, Text(reason), now, q.mem.messages[i]))
            && (e.Blocks() && reason == "" ==> (q, turn) == Dispatch(p, i, t, now, bind, SaveOk))
  {
    hide Dispatch;
  }

  /** Nothing is submitted without its callback: it lets an answer through if it is dispatching in an open inbox, a
      message if its target is still the same and ready, and both only with the mark saved. */
  lemma CallbackExactly(p: Proc, i: nat, t: Target, o: Saving)
    requires i < |p.mem.messages|
    ensures var e, (q, clear) := p.mem.messages[i], BeforeDelivery(p, i, t, o);
            && (clear <==>
                  && !p.closing && e.state.Dispatching? && o.SaveOk?
                  && (e.kind.Message? ==>
                        && t.Found? && t.waitingReason == ""
                        && e.incarnation == Incarnate(Resolve(p.mem, e.tab, t), e.tab, t)))
            && (clear ==> SavedAt(p, q, i) && q.mem.messages[i] == e.(started := true))
            && (!clear && (p.closing || o.SaveOk?) ==>
                  q == p || (t.Found? && q == p.(mem := Resolve(p.mem, e.tab, t))))
  {
    hide Restore, Resolve;
    if t.Found? {
      ResolveAhead(p.mem, p.mem.messages[i].tab, t);
      ResolveOnly(p.mem, p.mem.messages[i].tab, t);
    }
  }

  /** A `submit` that has returned leaves an accepted message, unless something else has become of it. */
  lemma ReturnExactly(p: Proc, i: nat, now: int)
    requires i < |p.mem.messages| && !p.closing
    ensures var e, q := p.mem.messages[i], SubmitReturned(p, i, now, SaveOk);
            if e.state.Dispatching? then SavedAt(p, q, i) && Became(e, Accepted, NoNote, now, q.mem.messages[i])
            else q == p
  {
  }

  // ------------------------------------------------------------------ answers

  /** An answer is taken up exactly if it is queued or waiting in an open inbox and that can be saved. */
  lemma AnswerBeginsExactly(p: Proc, i: nat, now: int, o: Saving)
    requires i < |p.mem.messages|
    ensures var e, (q, begun) := p.mem.messages[i], AnswerBegin(p, i, now, o);
            && (begun <==> e.state.Unsent() && !p.closing && o.SaveOk?)
            && (begun ==> SavedAt(p, q, i) && Became(e, Dispatching, NoNote, now, q.mem.messages[i]))
            && (!e.state.Unsent() || p.closing ==> q == p)
  {
    hide Restore;
  }

  /** What start-up makes of an answer in flight, and of its question: an unstarted one is queued again, and its
      question stays claimed; any other is uncertain, and so is its question. */
  lemma RecoveryExactly(p: Proc, i: nat, now: int)
    requires i < |p.mem.messages| && !p.closing
    ensures var e, q := p.mem.messages[i], RecoverAnswer(p, i, now, SaveOk, SaveOk);
            var k := FirstQuestion(p.mem.questions, e.questionRef);
            var halfway := e.kind.QuestionAnswer? && (e.state.Dispatching? || e.state.Accepted?);
            && (!halfway ==> q == p)
            && (halfway && !e.started ==>
                  SavedAt(p, q, i) && Became(e, Queued, RecoveredAnswer, now, q.mem.messages[i]))
            && (halfway && e.started ==>
                  && |q.mem.messages| == |p.mem.messages| && q == Proc(q.mem, q.mem, q.mem, false)
                  && q.mem.messages == p.mem.messages[i := q.mem.messages[i]]
                  && Became(e, Uncertain, AnswerUnreconciled, now, q.mem.messages[i])
                  && q.mem.questions == (if k == |p.mem.questions| then p.mem.questions
                                         else p.mem.questions[k := p.mem.questions[k].(state := Doubtful)]))
  {
    hide Restore, FirstQuestion;
  }

  // ------------------------------------------------------------------ expiry

  /** Thirty days after its last change the contents of a message that is finished, or scheduled and uncertain, are
      gone, and not before; its identity stays. */
  lemma ExpiryExactly(s: Store, now: int, j: nat)
    requires j < |s.messages|
    ensures var e, r := s.messages[j], ExpireStore(s, now);
            var aged := (e.state.Terminal() || (e.scheduled && e.state.Uncertain?)) && now > e.updatedAt + 2592000;
            && |r.messages| == |s.messages|
            && r.messages[j] == (if aged && !e.expired then e.(body := "", expired := true) else e)
  {
  }

  /** And so are the texts of a question that is settled, thirty days after its answer last changed, or if it has
      none after it was asked. */
  lemma FadingExactly(s: Store, now: int, k: nat)
    requires Inv(s) && k < |s.questions|
    ensures var q, r := s.questions[k], ExpireStore(s, now);
            && |r.questions| == |s.questions|
            && (forall j {:trigger s.messages[j]} | 0 <= j < |s.messages| && q.answerId == Some(s.messages[j].id) ::
                  r.questions[k] == if (q.state.Resolved? || q.state.Stale?)
                                       && now > s.messages[j].updatedAt + 2592000 then q.Faded() else q)
            && (q.answerId.None? ==>
                  r.questions[k] == if (q.state.Resolved? || q.state.Stale?) && now > q.createdAt + 2592000
                                    then q.Faded() else q)
  {
    hide AllSound, AllCompatible, AllAnswers;
    var q := s.questions[k];
    forall j | 0 <= j < |s.messages| && q.answerId == Some(s.messages[j].id)
      ensures First(s.messages, ById(q.answerId.value)) == j
    {
      assert ById(q.answerId.value).Hit(s.messages[j]);
    }
  }
}
