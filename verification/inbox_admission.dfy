/** Who is admitted, and what everybody else is answered: sends, claims of questions, scheduled admissions and
    cancellations, each with the exact condition of each reply. */
module InboxAdmission {
  import opened Options
  import opened ChatMessage
  import opened InboxStore
  import opened InboxEvolution
  import opened InboxOps
  import InboxMoves

  // ------------------------------------------------------------------ the backlog, as a set

  /** The entries that block a tab. */
  function Backlog(ms: seq<Envelope>, tab: string): set<nat> {
    set j: nat | j < |ms| && ms[j].tab == tab && ms[j].Blocks()
  }

  /** The answers among them. */
  function AnswerBacklog(ms: seq<Envelope>, tab: string): set<nat> {
    set j: nat | j < |ms| && ms[j].tab == tab && ms[j].Blocks() && ms[j].kind.QuestionAnswer?
  }

  /** The bytes of all the bodies of some entries. */
  ghost function Bytes(ms: seq<Envelope>, js: set<nat>): nat
    requires forall j | j in js :: j < |ms|
  {
    if js == {} then 0
    else
      var j :| j in js;
      |ms[j].body| + Bytes(ms, js - {j})
  }

  lemma {:induction false} BytesWithout(ms: seq<Envelope>, js: set<nat>, x: nat)
    requires x in js && forall j | j in js :: j < |ms|
    ensures Bytes(ms, js) == |ms[x].body| + Bytes(ms, js - {x})
    decreases |js|
  {
    var j :| j in js && Bytes(ms, js) == |ms[j].body| + Bytes(ms, js - {j});
    if j != x {
      BytesWithout(ms, js - {j}, x);
      BytesWithout(ms, js - {x}, j);
      assert js - {j} - {x} == js - {x} - {j};
    }
  }

  lemma {:induction false} BytesOfInit(ms: seq<Envelope>, js: set<nat>)
    requires ms != [] && forall j | j in js :: j < |ms| - 1
    ensures Bytes(ms, js) == Bytes(ms[..|ms| - 1], js)
    decreases |js|
  {
    if js != {} {
      var j :| j in js && Bytes(ms, js) == |ms[j].body| + Bytes(ms, js - {j});
      BytesOfInit(ms, js - {j});
      BytesWithout(ms[..|ms| - 1], js, j);
    }
  }

  lemma BacklogInit(ms: seq<Envelope>, tab: string)
    requires ms != []
    ensures var n, init := |ms| - 1, Backlog(ms[..|ms| - 1], tab);
            && Backlog(ms, tab) == (if ms[n].tab == tab && ms[n].Blocks() then init + {n} else init)
            && forall j | j in init :: j < n
  {
  }

  lemma AnswerBacklogInit(ms: seq<Envelope>, tab: string)
    requires ms != []
    ensures var n, init := |ms| - 1, AnswerBacklog(ms[..|ms| - 1], tab);
            && AnswerBacklog(ms, tab)
               == (if ms[n].tab == tab && ms[n].Blocks() && ms[n].kind.QuestionAnswer? then init + {n} else init)
            && forall j | j in init :: j < n
  {
  }

  /** One entry more in a backlog. */
  lemma BytesMore(ms: seq<Envelope>, init: set<nat>)
    requires ms != [] && forall j | j in init :: j < |ms| - 1
    ensures Bytes(ms, init) == Bytes(ms[..|ms| - 1], init)
    ensures Bytes(ms, init + {|ms| - 1}) == Bytes(ms, init) + |ms[|ms| - 1].body|
  {
    BytesOfInit(ms, init);
    BytesWithout(ms, init + {|ms| - 1}, |ms| - 1);
    assert init + {|ms| - 1} - {|ms| - 1} == init;
  }

  /** The sums the inbox computes are the number and the bytes of those entries, in queues of any length. */
  lemma {:induction false} BacklogCounts(ms: seq<Envelope>, tab: string)
    ensures CountBlocking(ms, tab) == |Backlog(ms, tab)|
    ensures BlockingBytes(ms, tab) == Bytes(ms, Backlog(ms, tab))
  {
    hide Bytes;
    if ms == [] {
      assert Backlog(ms, tab) == {};
      NoBytes(ms);
    } else {
      hide Backlog;
      BacklogCounts(ms[..|ms| - 1], tab);
      BacklogInit(ms, tab);
      BytesMore(ms, Backlog(ms[..|ms| - 1], tab));
    }
  }

  lemma NoBytes(ms: seq<Envelope>)
    ensures Bytes(ms, {}) == 0
  {
  }

  lemma {:induction false} AnswerBacklogCounts(ms: seq<Envelope>, tab: string)
    ensures AnswerBlocking(ms, tab) == |AnswerBacklog(ms, tab)|
    ensures AnswerBytes(ms, tab) == Bytes(ms, AnswerBacklog(ms, tab))
  {
    hide Bytes;
    if ms == [] {
      assert AnswerBacklog(ms, tab) == {};
      NoBytes(ms);
    } else {
      hide AnswerBacklog;
      AnswerBacklogCounts(ms[..|ms| - 1], tab);
      AnswerBacklogInit(ms, tab);
      BytesMore(ms, AnswerBacklog(ms[..|ms| - 1], tab));
    }
  }

  // ------------------------------------------------------------------ sends

  /** Entry `j` bears the four names of the call. */
  predicate Bears(e: Envelope, principal: string, tab: string, inc: Incarnation, callId: string) {
    e.principal == principal && e.tab == tab && e.incarnation == inc && e.callId == callId
  }

  ghost predicate Borne(ms: seq<Envelope>, principal: string, tab: string, inc: Incarnation, callId: string) {
    exists j :: 0 <= j < |ms| && Bears(ms[j], principal, tab, inc, callId)
  }

  /** There is room for one more entry with that many bytes. */
  ghost predicate Room(ms: seq<Envelope>, tab: string, bytes: nat, limits: Limits) {
    && |Backlog(ms, tab)| < limits.maxPending
    && Bytes(ms, Backlog(ms, tab)) + bytes <= limits.maxBytes
  }

  /** Queued behind all others, with nothing done about it yet. */
  ghost predicate Behind(e: Envelope, before: seq<Envelope>, now: int) {
    && e.state.Queued? && e.updatedAt == now && e.attempts == 0 && e.recoveryCheckedAt.None?
    && e.waitingReason.NoNote? && e.error.NoNote? && !e.started && !e.expired && !e.scheduled && !e.adopted
    && NextSequence(e.sequence, before)
  }

  /** One more than the highest sequence there is. */
  ghost predicate NextSequence(n: int, before: seq<Envelope>) {
    && n >= 1 && (forall j | 0 <= j < |before| :: before[j].sequence < n)
    && (n > 1 ==> exists j :: 0 <= j < |before| && before[j].sequence == n - 1)
  }

  /** A new direct message. */
  ghost predicate IsNew(e: Envelope, before: seq<Envelope>, tab: string, principal: string, call: Call, id: string,
                        inc: Incarnation, now: int)
  {
    && e.id == id && e.callId == call.callId && e.tab == tab && e.principal == principal
    && e.turn == "hub-message-" + id && e.questionRef == ""
    && e.kind.Message? && e.incarnation == inc && e.fingerprint == call.fingerprint && e.body == call.body
    && Behind(e, before, now)
  }

  /** A send is answered by exactly one of these, and changes nothing but what is said: a message is new and saved if
      and only if the inbox is open, the target is found, nothing bears the call, the Chat is not archived, there is
      room, and the save succeeds. */
  lemma SendExactly(p: Proc, tab: string, principal: string, call: Call, id: string, t: Target, limits: Limits,
                    now: int, o: Saving)
    ensures var (q, r) := Enqueue(p, tab, principal, call, id, t, limits, now, o);
            && (p.closing ==> q == p && r == Refused(503))
            && (!p.closing && t.NoTarget? ==> q == p && r == Refused(t.status))
            && (!p.closing && t.Found? ==>
                  var m := Resolve(p.mem, tab, t);
                  var inc, ms := Incarnate(m, tab, t), p.mem.messages;
                  var k := First(ms, ByCall(principal, tab, inc, call.callId));
                  && m.messages == ms
                  && (Borne(ms, principal, tab, inc, call.callId) ==>
                        && q == p.(mem := m) && k < |ms| && Bears(ms[k], principal, tab, inc, call.callId)
                        && r == (if ms[k].fingerprint != call.fingerprint then Refused(409)
                                 else if ms[k].expired then Refused(410) else Receipt(ms[k])))
                  && (!Borne(ms, principal, tab, inc, call.callId) ==>
                        && (t.waitingReason == "archived" ==> q == p.(mem := m) && r == Refused(409))
                        && (t.waitingReason != "archived" && !Room(ms, tab, |call.body|, limits) ==>
                              q == p.(mem := m) && r == Refused(429))
                        && (t.waitingReason != "archived" && Room(ms, tab, |call.body|, limits) ==>
                              && (r.Receipt? <==> o.SaveOk?)
                              && (!o.SaveOk? ==> r.SaveRaised? && q.closing)
                              && (o.SaveOk? ==>
                                    && q == Proc(Append(m, r.envelope), Append(m, r.envelope), Append(m, r.envelope),
                                                 false)
                                    && IsNew(r.envelope, ms, tab, principal, call, id, inc, now)))))
  {
    hide Restore, Resolve, CountBlocking, BlockingBytes, Backlog, First, Bytes;
    if !p.closing && t.Found? {
      InboxMoves.ResolveAhead(p.mem, tab, t);
      var m := Resolve(p.mem, tab, t);
      BacklogCounts(p.mem.messages, tab);
      FirstBears(p.mem.messages, principal, tab, Incarnate(m, tab, t), call.callId);
    }
  }

  lemma FirstBears(ms: seq<Envelope>, principal: string, tab: string, inc: Incarnation, callId: string)
    ensures var k := First(ms, ByCall(principal, tab, inc, callId));
            && (k < |ms| <==> Borne(ms, principal, tab, inc, callId))
            && (k < |ms| ==> Bears(ms[k], principal, tab, inc, callId))
  {
    var q := ByCall(principal, tab, inc, callId);
    assert forall j | 0 <= j < |ms| :: q.Hit(ms[j]) <==> Bears(ms[j], principal, tab, inc, callId);
  }

  // ------------------------------------------------------------------ scheduled admissions and cancellations

  /** A scheduled intent that is known already is returned as it is; a new one is saved unless it is an unsent one
      beyond the limit and the limit is enforced. */
  lemma AdmitExactly(p: Proc, item: Envelope, enforceLimit: bool, limits: Limits, o: Saving)
    ensures var ms, k := p.mem.messages, First(p.mem.messages, ById(item.id));
            var (q, r) := AdmitScheduled(p, item, enforceLimit, limits, o);
            && (p.closing ==> q == p && r == Refused(503))
            && (!p.closing && k < |ms| ==> q == p && ms[k].id == item.id && r == Receipt(ms[k]))
            && (!p.closing && k == |ms| ==>
                  && (forall j | 0 <= j < |ms| :: ms[j].id != item.id)
                  && var full := enforceLimit && item.state.Unsent() && |Backlog(ms, item.tab)| >= limits.maxPending;
                     && (full ==> q == p && r == Refused(429))
                     && (!full && !o.SaveOk? ==> r.SaveRaised? && q.closing)
                     && (!full && o.SaveOk? ==>
                           && r.Receipt? && r.envelope == item.(sequence := r.envelope.sequence)
                           && NextSequence(r.envelope.sequence, ms)
                           && q == Proc(Append(p.mem, r.envelope), Append(p.mem, r.envelope),
                                        Append(p.mem, r.envelope), false)))
  {
    hide Restore, CountBlocking, Backlog, First;
    BacklogCounts(p.mem.messages, item.tab);
    FirstById(p.mem.messages, item.id);
  }

  lemma FirstById(ms: seq<Envelope>, id: string)
    ensures var k := First(ms, ById(id));
            (k < |ms| ==> ms[k].id == id) && (k == |ms| ==> forall j | 0 <= j < |ms| :: ms[j].id != id)
  {
    assert forall j | 0 <= j < |ms| :: ById(id).Hit(ms[j]) <==> ms[j].id == id;
  }

  /** Entry `k` is cancelled, in memory, payload and file. */
  ghost predicate CancelledNow(p: Proc, q: Proc, k: nat, now: int)
    requires k < |p.mem.messages|
  {
    && q == Proc(q.mem, q.mem, q.mem, false)
    && q.mem == p.mem.(messages := p.mem.messages[k :=
         p.mem.messages[k].(state := Cancelled, updatedAt := now, waitingReason := NoNote, error := NoNote)])
  }

  /** A caller cancels a message of his own exactly if it is still queued or waiting; everybody else learns nothing,
      and what is under way or finished is only reported. */
  lemma CancelExactly(p: Proc, tab: string, id: string, principal: string, now: int, o: Saving)
    ensures var ms, k := p.mem.messages, First(p.mem.messages, ById(id));
            var (q, r) := Cancel(p, tab, id, principal, now, o);
            && (p.closing ==> q == p && r == Refused(503))
            && (!p.closing ==>
                  && (k == |ms| || ms[k].tab != tab || ms[k].principal != principal ==> q == p && r == Refused(404))
                  && (k < |ms| && ms[k].tab == tab && ms[k].principal == principal ==>
                        && (ms[k].expired ==> q == p && r == Refused(410))
                        && (!ms[k].expired && ms[k].state.Cancelled? ==> q == p && r == Receipt(ms[k]))
                        && (!ms[k].expired && !ms[k].state.Cancelled? && !ms[k].state.Unsent() ==>
                              q == p && r == Refused(409))
                        && (!ms[k].expired && ms[k].state.Unsent() ==>
                              && (o.SaveOk? ==> r.Receipt? && r.envelope.id == id && r.envelope == q.mem.messages[k])
                              && (o.SaveOk? ==> CancelledNow(p, q, k, now))
                              && (!o.SaveOk? ==> r.SaveRaised? && q.closing))))
  {
    hide Restore, First;
    FirstById(p.mem.messages, id);
  }

  /** The scheduler cancels a run of its own that is still queued or waiting, and one in flight exactly if it
      releases it and the run still blocks its tab; it touches no direct message. */
  lemma CancelScheduledExactly(p: Proc, id: string, release: bool, now: int, o: Saving)
    ensures var ms, k := p.mem.messages, First(p.mem.messages, ById(id));
            var (q, r) := CancelScheduled(p, id, release, now, o);
            var goes := k < |ms| && ms[k].scheduled && (ms[k].state.Unsent() || (release && ms[k].Blocks()));
            && (!goes ==> q == p && r == Done(false))
            && (goes && p.closing ==> q == p && r == Refused(503))
            && (goes && !p.closing && !o.SaveOk? ==> r.SaveRaised? && q.closing)
            && (goes && !p.closing && o.SaveOk? ==>
                  && ms[k].id == id && r == Done(true) && q.mem == q.committed == q.disk && !q.closing
                  && |q.mem.messages| == |ms| && q.mem == p.mem.(messages := ms[k := q.mem.messages[k]])
                  && q.mem.messages[k] == ms[k].(state := Cancelled, updatedAt := now, waitingReason := NoNote,
                                                 error := NoNote))
  {
    hide Restore, First;
    FirstById(p.mem.messages, id);
  }

  // ------------------------------------------------------------------ claims of questions

  ghost predicate AnsweredBy(ms: seq<Envelope>, callId: string) {
    exists j :: 0 <= j < |ms| && ms[j].kind.QuestionAnswer? && ms[j].callId == callId
  }

  /** There is room for one more answer with that many bytes. */
  ghost predicate AnswerRoom(ms: seq<Envelope>, tab: string, bytes: nat, limits: Limits) {
    |AnswerBacklog(ms, tab)| < 100 && Bytes(ms, AnswerBacklog(ms, tab)) + bytes <= limits.maxBytes
  }

  /** A new answer to the question. */
  ghost predicate IsNewAnswer(e: Envelope, before: seq<Envelope>, q: Question, principal: string, call: AnswerCall,
                              id: string, now: int)
  {
    && e.id == id && e.callId == call.callId && e.tab == q.tab && e.principal == principal
    && e.kind.QuestionAnswer? && e.questionRef == q.ref && e.incarnation == q.incarnation
    && e.fingerprint == call.fingerprint && e.body == call.body
    && e.turn == (if q.mode.Native? then q.turn else if q.terminal then "question-answer-" + id else call.callId)
    && Behind(e, before, now)
  }

  /** A claim is answered by exactly one of these: an open question within the limits is claimed, with its answer and
      its callback receipt in one save; a repeated callback gets its answer's receipt, a repeated call that answer's,
      and whoever differs in what he said is refused. */
  lemma ClaimExactly(p: Proc, ref: string, principal: string, call: AnswerCall, callback: Option<(string, string)>,
                     id: string, limits: Limits, now: int, o: Saving)
    ensures var s, k := p.mem, FirstQuestion(p.mem.questions, ref);
            var (c, r) := ClaimAnswer(p, ref, principal, call, callback, id, limits, now, o);
            var repeated := callback.Some? && callback.value.0 in s.receipts;
            && (p.closing ==> c == p && r == Refused(503))
            && (!p.closing && k == |s.questions| ==> c == p && r == Refused(404))
            && (!p.closing && k < |s.questions| ==>
                  && (repeated ==> c == p && r == CallbackReply(s, callback.value))
                  && (!repeated && AnsweredBy(s.messages, call.callId) ==>
                        c == p && r == CallReply(s, ref, principal, call))
                  && (!repeated && !AnsweredBy(s.messages, call.callId) ==>
                        && (!s.questions[k].state.Open? ==> c == p && r == Refused(409))
                        && (s.questions[k].state.Open?
                            && !AnswerRoom(s.messages, s.questions[k].tab, |call.selected|, limits) ==>
                              c == p && r == Refused(429))
                        && (s.questions[k].state.Open?
                            && AnswerRoom(s.messages, s.questions[k].tab, |call.selected|, limits) ==>
                              && (r.Receipt? <==> o.SaveOk?)
                              && (!o.SaveOk? ==> r.SaveRaised? && c.closing)
                              && (o.SaveOk? ==>
                                    && c == Proc(c.mem, c.mem, c.mem, false)
                                    && c.mem == s.(messages := s.messages + [r.envelope],
                                                   questions := c.mem.questions, receipts := c.mem.receipts)
                                    && c.mem.questions == s.questions[k := s.questions[k].(state := Claimed,
                                                                                           answerId := Some(id))]
                                    && c.mem.receipts == (if callback.None? then s.receipts
                                                          else s.receipts[callback.value.0 :=
                                                                 CallbackRecord(callback.value.1, id)])
                                    && IsNewAnswer(r.envelope, s.messages, s.questions[k], principal, call, id, now)))))
  {
    hide Restore, AnswerBlocking, AnswerBytes, AnswerBacklog, First, FirstQuestion, Bytes;
    if FirstQuestion(p.mem.questions, ref) < |p.mem.questions| {
      AnswerBacklogCounts(p.mem.messages, p.mem.questions[FirstQuestion(p.mem.questions, ref)].tab);
    }
    FirstAnswer(p.mem.messages, call.callId);
  }

  lemma FirstAnswer(ms: seq<Envelope>, callId: string)
    ensures var k := First(ms, AnswerByCall(callId));
            && (k < |ms| <==> AnsweredBy(ms, callId))
            && (k < |ms| ==> ms[k].kind.QuestionAnswer? && ms[k].callId == callId)
  {
    var q := AnswerByCall(callId);
    assert forall j | 0 <= j < |ms| :: q.Hit(ms[j]) <==> ms[j].kind.QuestionAnswer? && ms[j].callId == callId;
  }

  /** A callback that has been handled: its answer, if it said the same. */
  function CallbackReply(s: Store, callback: (string, string)): Reply
    requires callback.0 in s.receipts
  {
    var prior := s.receipts[callback.0];
    var n := First(s.messages, ById(prior.answerId));
    if callback.1 != prior.fingerprint then Refused(409)
    else if n == |s.messages| then Refused(500)
    else Receipt(s.messages[n])
  }

  /** A call that has been made: its answer, if it was the same caller, question and payload. */
  function CallReply(s: Store, ref: string, principal: string, call: AnswerCall): Reply {
    var n := First(s.messages, AnswerByCall(call.callId));
    if n == |s.messages| then Refused(404)
    else
      var e := s.messages[n];
      if e.principal == principal && e.questionRef == ref && e.fingerprint == call.fingerprint then
        if e.expired then Refused(410) else Receipt(e)
      else Refused(409)
  }
}
