/** That an open question can be answered: from any run, by a claim within the limits and the submission of the
    answer it stored. */
module InboxAnswers {
  import opened Options
  import opened ChatMessage
  import opened InboxStore
  import opened InboxEvolution
  import opened InboxOps
  import opened InboxProtocol
  import opened InboxSafety
  import opened InboxRuns
  import opened InboxAdmission
  import InboxCalls

  /** Only the state of entry `i` and what it says of its last change differ, and everything is saved. */
  ghost predicate AnswerMoved(p: Proc, q: Proc, i: nat) {
    && i < |p.mem.messages| == |q.mem.messages| && q == Proc(q.mem, q.mem, q.mem, false)
    && q.mem.questions == p.mem.questions && q.mem.messages == p.mem.messages[i := q.mem.messages[i]]
    && var e, f := p.mem.messages[i], q.mem.messages[i];
       f.kind == e.kind && f.tab == e.tab && f.questionRef == e.questionRef && f.id == e.id
  }

  lemma AnswerDispatched(p: Proc, i: nat, now: int)
    requires i < |p.mem.messages| && !p.closing && p.mem.messages[i].state.Unsent()
    ensures var r := AnswerBegin(p, i, now, SaveOk);
            r.1 && AnswerMoved(p, r.0, i) && r.0.mem.messages[i].state.Dispatching?
  {
  }

  lemma AnswerMarked(p: Proc, i: nat, t: Target)
    requires i < |p.mem.messages| && !p.closing
    requires p.mem.messages[i].state.Dispatching? && p.mem.messages[i].kind.QuestionAnswer?
    ensures var r := BeforeDelivery(p, i, t, SaveOk);
            r.1 && AnswerMoved(p, r.0, i) && r.0.mem.messages[i].state.Dispatching? && r.0.mem.messages[i].started
  {
  }

  lemma AnswerDelivered(p: Proc, i: nat, now: int)
    requires i < |p.mem.messages| && !p.closing
    ensures var e, q := p.mem.messages[i], AnswerEnd(p, i, Delivered, now, SaveOk, SaveOk);
            var k := FirstQuestion(p.mem.questions, e.questionRef);
            && |q.mem.messages| == |p.mem.messages| && q.mem.messages == p.mem.messages[i := q.mem.messages[i]]
            && q.mem.messages[i].state.Completed? && q.mem == q.committed && !q.closing
            && (k < |p.mem.questions| ==>
                  && q == Proc(q.mem, q.mem, q.mem, false)
                  && q.mem.questions == p.mem.questions[k := p.mem.questions[k].(state := Resolved)])
  {
    hide FirstQuestion;
  }

  lemma NextAnswers(w: World, s: Step, now: int)
    requires Typed(w) && Enabled(w, s, now)
    ensures OfAnswers(s) ==> Next(w, s, now) == AnswerNext(w, s, now)
    ensures OfCalls(s) ==> Next(w, s, now) == CallNext(w, s, now)
  {
    hide Enabled, Typed, Around, CallNext, PumpNext, AnswerNext, ReadNext;
  }

  /** The answer has reached its provider, and its question is resolved. */
  ghost predicate GotThrough(w: World, v: World, i: nat, k: nat) {
    && i < |w.p.mem.messages| == |v.p.mem.messages| && v.p == Proc(v.p.mem, v.p.mem, v.p.mem, false)
    && v.p.mem.messages == w.p.mem.messages[i := v.p.mem.messages[i]] && v.p.mem.messages[i].state.Completed?
    && k < |w.p.mem.questions|
    && v.p.mem.questions == w.p.mem.questions[k := w.p.mem.questions[k].(state := Resolved)]
    && v.contacts == w.contacts + [Contact(i, w.p.mem.messages[i].tab, QuestionAnswer)]
    && i !in v.answers && v.acked == w.acked
  }

  /** The submission of answer `i`, begun in `w`, has got so far in `v`. */
  ghost predicate Underway(w: World, v: World, i: nat, phase: Phase) {
    && AnswerMoved(w.p, v.p, i) && v.p.mem.messages[i].state.Dispatching? && v.p.mem.messages[i].kind.QuestionAnswer?
    && v.answers == w.answers[i := phase] && v.acked == w.acked
    && v.contacts == if phase.Reached? then w.contacts + [Contact(i, w.p.mem.messages[i].tab, QuestionAnswer)]
                     else w.contacts
  }

  lemma AnswerStarts(w: World, i: nat, now: int)
    requires Typed(w) && now > w.clock && !w.p.closing && i !in w.answers && i < |w.p.mem.messages|
    requires w.p.mem.messages[i].kind.QuestionAnswer? && w.p.mem.messages[i].state.Unsent()
    ensures Enabled(w, AnswerBegins(i, SaveOk), now)
    ensures Underway(w, Next(w, AnswerBegins(i, SaveOk), now), i, Calling)
  {
    hide Typed, Next, AnswerBegin;
    NextAnswers(w, AnswerBegins(i, SaveOk), now);
    AnswerDispatched(w.p, i, now);
  }

  lemma AnswerPasses(w: World, v: World, i: nat, now: int)
    requires Underway(w, v, i, Calling) && Typed(v) && now > v.clock
    ensures Enabled(v, AnswerCallback(i, SaveOk), now)
    ensures Underway(w, Next(v, AnswerCallback(i, SaveOk), now), i, Cleared)
  {
    hide Typed, Next, BeforeDelivery;
    NextAnswers(v, AnswerCallback(i, SaveOk), now);
    AnswerMarked(v.p, i, NoTarget(0, ""));
  }

  lemma AnswerContacts(w: World, v: World, i: nat, now: int)
    requires Underway(w, v, i, Cleared) && Typed(v) && now > v.clock
    ensures Enabled(v, AnswerReaches(i), now)
    ensures Underway(w, Next(v, AnswerReaches(i), now), i, Reached)
  {
    hide Typed, Next;
    NextAnswers(v, AnswerReaches(i), now);
  }

  lemma AnswerLands(w: World, v: World, i: nat, now: int)
    requires Underway(w, v, i, Reached) && Typed(v) && now > v.clock
    requires FirstQuestion(w.p.mem.questions, w.p.mem.messages[i].questionRef) < |w.p.mem.questions|
    ensures Enabled(v, AnswerEnds(i, Delivered, SaveOk, SaveOk), now)
    ensures GotThrough(w, Next(v, AnswerEnds(i, Delivered, SaveOk, SaveOk), now), i,
                       FirstQuestion(w.p.mem.questions, w.p.mem.messages[i].questionRef))
  {
    hide Typed, Next, AnswerEnd, FirstQuestion;
    NextAnswers(v, AnswerEnds(i, Delivered, SaveOk, SaveOk), now);
    AnswerDelivered(v.p, i, now);
  }

  /** An answer that is queued or waiting can be submitted: it reaches its provider once, is completed, and resolves
      its question, and no other message or question changes. */
  lemma AnswerGetsThrough(ws: seq<World>, i: nat) returns (us: seq<World>)
    requires Run(ws) && |ws| > 0 && !Last(ws).p.closing && i !in Last(ws).answers && i < |Last(ws).p.mem.messages|
    requires Last(ws).p.mem.messages[i].kind.QuestionAnswer? && Last(ws).p.mem.messages[i].state.Unsent()
    ensures |ws| < |us| && Run(us) && us[..|ws|] == ws
    ensures GotThrough(Last(ws), Last(us), i,
                       FirstQuestion(Last(ws).p.mem.questions, Last(ws).p.mem.messages[i].questionRef))
  {
    hide Goes, Run, Next, Typed, Enabled, Underway, FirstQuestion, State.Unsent, GotThrough;
    var w := Last(ws);
    AnswerHasQuestion(ws, i);
    RunIsTyped(ws, |ws| - 1);
    AnswerStarts(w, i, w.clock + 1);
    var us1 := GoOn(ws, AnswerBegins(i, SaveOk), w.clock + 1);
    RunIsTyped(us1, |us1| - 1);
    AnswerPasses(w, Last(us1), i, w.clock + 2);
    var us2 := GoOn(us1, AnswerCallback(i, SaveOk), w.clock + 2);
    RunIsTyped(us2, |us2| - 1);
    AnswerContacts(w, Last(us2), i, w.clock + 3);
    var us3 := GoOn(us2, AnswerReaches(i), w.clock + 3);
    RunIsTyped(us3, |us3| - 1);
    AnswerLands(w, Last(us3), i, w.clock + 4);
    us := GoOn(us3, AnswerEnds(i, Delivered, SaveOk, SaveOk), w.clock + 4);
    assert us[..|ws|] == us3[..|ws|] == us2[..|ws|] == us1[..|ws|];
  }

  lemma AnswerHasQuestion(ws: seq<World>, i: nat)
    requires Run(ws) && |ws| > 0 && i < |Last(ws).p.mem.messages| && Last(ws).p.mem.messages[i].kind.QuestionAnswer?
    ensures FirstQuestion(Last(ws).p.mem.questions, Last(ws).p.mem.messages[i].questionRef)
              < |Last(ws).p.mem.questions|
  {
    hide Run, Inv;
    InboxCalls.StoresAreSound(ws, |ws| - 1, Last(ws).p.mem);
    InboxCalls.HasItsQuestion(Last(ws).p.mem, i);
  }

  /** A call that a question can be answered with: new, and within the limits. */
  ghost predicate CanClaim(w: World, k: nat, call: AnswerCall, callback: Option<(string, string)>, id: string,
                           limits: Limits) {
    && !w.p.closing && k < |w.p.mem.questions| && w.p.mem.questions[k].state.Open? && Fresh(w, id)
    && FirstQuestion(w.p.mem.questions, w.p.mem.questions[k].ref) == k
    && (callback.Some? ==> callback.value.0 !in w.p.mem.receipts)
    && !AnsweredBy(w.p.mem.messages, call.callId)
    && AnswerRoom(w.p.mem.messages, w.p.mem.questions[k].tab, |call.selected|, limits)
  }

  /** The world after the claim: the answer is stored, queued, and nobody is submitting it. */
  ghost predicate Claims(w: World, v: World, k: nat, call: AnswerCall, id: string) {
    && k < |w.p.mem.questions| && !v.p.closing
    && var n := |w.p.mem.messages|;
       && |v.p.mem.messages| == n + 1 && v.p.mem.messages[..n] == w.p.mem.messages
       && v.p.mem.questions == w.p.mem.questions[k := w.p.mem.questions[k].(state := Claimed, answerId := Some(id))]
       && var e := v.p.mem.messages[n];
          && e.id == id && e.callId == call.callId && e.body == call.body && e.kind.QuestionAnswer?
          && e.state.Queued? && e.questionRef == w.p.mem.questions[k].ref && e.tab == w.p.mem.questions[k].tab
          && FirstQuestion(w.p.mem.questions, e.questionRef) == k
          && v.contacts == w.contacts && v.answers == w.answers && id in v.acked
  }

  lemma ClaimLands(w: World, k: nat, principal: string, call: AnswerCall, callback: Option<(string, string)>,
                   id: string, limits: Limits, now: int)
    requires CanClaim(w, k, call, callback, id, limits) && Typed(w) && now > w.clock
    ensures var s := ClaimStep(w.p.mem.questions[k].ref, principal, call, callback, id, limits, SaveOk);
            Enabled(w, s, now) && Claims(w, CallNext(w, s, now), k, call, id)
  {
    hide FirstQuestion, ClaimAnswer, AnswerRoom, AnsweredBy, Typed;
    ClaimExactly(w.p, w.p.mem.questions[k].ref, principal, call, callback, id, limits, now, SaveOk);
  }

  /** From any run, an open question can be answered by such a call: its answer is stored and acknowledged, reaches
      its provider once and is completed, and the question names it and is resolved. */
  lemma QuestionCanBeAnswered(ws: seq<World>, k: nat, principal: string, call: AnswerCall,
                              callback: Option<(string, string)>, id: string, limits: Limits)
      returns (us: seq<World>)
    requires Run(ws) && |ws| > 0 && CanClaim(Last(ws), k, call, callback, id, limits)
    ensures |ws| < |us| && Run(us) && us[..|ws|] == ws
    ensures var w, v, n := Last(ws), Last(us), |Last(ws).p.mem.messages|;
            && |v.p.mem.messages| == n + 1 && v.p.mem.messages[..n] == w.p.mem.messages
            && v.p.mem.messages[n].state.Completed? && v.p == Proc(v.p.mem, v.p.mem, v.p.mem, false)
            && k < |w.p.mem.questions|
            && v.p.mem.questions == w.p.mem.questions[k := w.p.mem.questions[k].(state := Resolved,
                                                                                 answerId := Some(id))]
            && v.contacts == w.contacts + [Contact(n, w.p.mem.questions[k].tab, QuestionAnswer)]
            && id in v.acked
  {
    hide Run, Typed, CanClaim, Claims, GotThrough, FirstQuestion, State.Unsent;
    RunIsTyped(ws, |ws| - 1);
    var mid := ClaimGoesOn(ws, k, principal, call, callback, id, limits);
    ReadyToSubmit(Last(ws), Last(mid), k, call, id);
    us := AnswerGetsThrough(mid, |Last(ws).p.mem.messages|);
    ThenThrough(Last(ws), Last(mid), Last(us), k, call, id);
    assert us[..|ws|] == us[..|mid|][..|ws|];
  }

  lemma ClaimGoesOn(ws: seq<World>, k: nat, principal: string, call: AnswerCall, callback: Option<(string, string)>,
                    id: string, limits: Limits) returns (us: seq<World>)
    requires Run(ws) && |ws| > 0 && Typed(Last(ws)) && CanClaim(Last(ws), k, call, callback, id, limits)
    ensures |us| == |ws| + 1 && Run(us) && us[..|ws|] == ws && Claims(Last(ws), Last(us), k, call, id)
  {
    hide Goes, Run, Next, Typed, Enabled, Claims, AnswerRoom, AnsweredBy, FirstQuestion;
    var w, now := Last(ws), Last(ws).clock + 1;
    var step := ClaimStep(w.p.mem.questions[k].ref, principal, call, callback, id, limits, SaveOk);
    ClaimLands(w, k, principal, call, callback, id, limits, now);
    us := GoOn(ws, step, now);
    NextAnswers(w, step, now);
  }

  /** The stored answer can be submitted. */
  lemma ReadyToSubmit(w: World, v: World, k: nat, call: AnswerCall, id: string)
    requires Typed(w) && Claims(w, v, k, call, id)
    ensures var n := |w.p.mem.messages|;
            && !v.p.closing && n !in v.answers && n < |v.p.mem.messages|
            && v.p.mem.messages[n].kind.QuestionAnswer? && v.p.mem.messages[n].state.Unsent()
  {
  }

  lemma ThenThrough(w: World, v: World, u: World, k: nat, call: AnswerCall, id: string)
    requires Claims(w, v, k, call, id)
    requires |w.p.mem.messages| < |v.p.mem.messages|
    requires GotThrough(v, u, |w.p.mem.messages|,
                        FirstQuestion(v.p.mem.questions, v.p.mem.messages[|w.p.mem.messages|].questionRef))
    ensures var n := |w.p.mem.messages|;
            && k < |w.p.mem.questions|
            && |u.p.mem.messages| == n + 1 && u.p.mem.messages[..n] == w.p.mem.messages
            && u.p.mem.messages[n].state.Completed? && u.p == Proc(u.p.mem, u.p.mem, u.p.mem, false)
            && u.p.mem.questions == w.p.mem.questions[k := w.p.mem.questions[k].(state := Resolved,
                                                                                 answerId := Some(id))]
            && u.contacts == w.contacts + [Contact(n, w.p.mem.questions[k].tab, QuestionAnswer)]
            && id in u.acked
  {
    hide FirstQuestion;
    var q := w.p.mem.questions[k];
    SameRefs(w.p.mem.questions, k, q.(state := Claimed, answerId := Some(id)));
  }

  lemma SameRefs(qs: seq<Question>, k: nat, q: Question)
    requires k < |qs| && q.ref == qs[k].ref && FirstQuestion(qs, q.ref) == k
    ensures FirstQuestion(qs[k := q], q.ref) == k
  {
    var rs := qs[k := q];
    assert rs[k].ref == q.ref;
    assert forall j | 0 <= j < k :: rs[j] == qs[j];
  }
}
