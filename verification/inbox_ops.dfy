/** The operations of `ChatMessageInbox` as functions on the process and its file: each is the stretch
    of one method between two suspension points.  What the callbacks, the clock, the identifier
    generator and the file system answer is an argument. */
module InboxOps {
  import opened Options
  import opened ChatMessage
  import opened InboxStore
  import opened InboxEvolution

  /** How one `_save` ends: the file is replaced, or it fails before or after the replacement. */
  datatype Saving = SaveOk | FailsBeforeReplace | FailsAfterReplace

  /** The dictionaries in memory, the payload last known to be saved, the file, and `_closing`. */
  datatype Proc = Proc(mem: Store, committed: Store, disk: Store, closing: bool)

  datatype Reply = Receipt(envelope: Envelope) | Refused(status: int) | SaveRaised | Done(changed: bool)

  /** What `self.target(tab_id)` answers. */
  datatype Target =
    | NoTarget(status: int, detail: string)
    | Found(base: string, conversation: string, waitingReason: string)

  datatype Limits = Limits(maxPending: int, maxBytes: int)

  datatype Proof = Absent | Started | ProvenCompleted | ProvenFailed | ProvenCancelled | Live

  datatype Liveness = Unknown | Alive | Dead

  const MONTH := 30 * 24 * 3600

  // ------------------------------------------------------------------ saving

  /** `_save`: on failure the inbox closes and the memory goes back to the committed payload. */
  function Save(p: Proc, o: Saving): Proc {
    if o.SaveOk? then p.(committed := p.mem, disk := p.mem)
    else
      var back := Restore(Dump(p.committed));
      p.(closing := true,
         mem := if back.Loaded? then back.store else p.mem,
         disk := if o.FailsAfterReplace? then p.mem else p.disk)
  }

  /** The new process that reads the file: `__init__` and `_restore`. */
  function Reopen(p: Proc): Proc {
    var back := Restore(Dump(p.disk));
    if back.Loaded? then Proc(back.store, back.store, p.disk, false) else p
  }

  function Stamp(e: Envelope, state: State, reason: Note, now: int): Envelope {
    e.(state := state, updatedAt := now,
       waitingReason := if state.Waiting? then reason else NoNote,
       error := if state.Failed? || state.Uncertain? then reason else NoNote,
       adopted := e.adopted && !state.Unsent())
  }

  /** `_change`: refused once the inbox is closing, otherwise stamped and saved. */
  function Change(p: Proc, i: nat, state: State, reason: Note, now: int, o: Saving): Proc
    requires i < |p.mem.messages|
  {
    if p.closing then p
    else Save(p.(mem := Replace(p.mem, i, Stamp(p.mem.messages[i], state, reason, now))), o)
  }

  predicate Changed(p: Proc, o: Saving) { !p.closing && o.SaveOk? }

  // ------------------------------------------------------------------ targets

  /** `_target`: a pinned conversation that is gone starts a new epoch. */
  function Resolve(s: Store, tab: string, t: Target): Store
    requires t.Found?
  {
    var key := (tab, t.base);
    if s.Pinned(key) != "" && t.conversation != s.Pinned(key) then
      s.(epochs := s.epochs[key := s.Epoch(key) + 1], conversations := s.conversations[key := t.conversation])
    else if s.Pinned(key) == "" && t.conversation != "" then
      s.(conversations := s.conversations[key := t.conversation])
    else s
  }

  function Incarnate(s: Store, tab: string, t: Target): Incarnation
    requires t.Found?
  {
    At(t.base, s.Epoch((tab, t.base)))
  }

  // ------------------------------------------------------------------ admission

  function CountBlocking(ms: seq<Envelope>, tab: string): nat {
    if ms == [] then 0
    else CountBlocking(ms[..|ms| - 1], tab) + (if ms[|ms| - 1].tab == tab && ms[|ms| - 1].Blocks() then 1 else 0)
  }

  function BlockingBytes(ms: seq<Envelope>, tab: string): nat {
    if ms == [] then 0
    else BlockingBytes(ms[..|ms| - 1], tab) +
         (if ms[|ms| - 1].tab == tab && ms[|ms| - 1].Blocks() then |ms[|ms| - 1].body| else 0)
  }

  /** The public part of a send; the fingerprint stands for the digest of the payload. */
  datatype Call = Call(callId: string, fingerprint: string, body: string)

  function NewMessage(s: Store, tab: string, principal: string, call: Call, id: string, inc: Incarnation,
                      now: int): Envelope {
    Envelope(id, call.callId, tab, "hub-message-" + id, Message, "", Queued, NoNote, NoNote, now,
             principal, inc, call.fingerprint, call.body,
             MaxSequence(s.messages) + 1, 0, false, false, false, None, false)
  }

  function Enqueue(p: Proc, tab: string, principal: string, call: Call, id: string, t: Target, limits: Limits,
                   now: int, o: Saving): (Proc, Reply) {
    if p.closing then (p, Refused(503))
    else if t.NoTarget? then (p, Refused(t.status))
    else
      var m := Resolve(p.mem, tab, t);
      var inc := Incarnate(m, tab, t);
      var seen := p.(mem := m);
      var k := First(m.messages, ByCall(principal, tab, inc, call.callId));
      if k < |m.messages| then
        (seen, if m.messages[k].fingerprint != call.fingerprint then Refused(409)
               else if m.messages[k].expired then Refused(410)
               else Receipt(m.messages[k]))
      else if t.waitingReason == "archived" then (seen, Refused(409))
      else if CountBlocking(m.messages, tab) >= limits.maxPending
              || BlockingBytes(m.messages, tab) + |call.body| > limits.maxBytes then (seen, Refused(429))
      else
        var e := NewMessage(m, tab, principal, call, id, inc, now);
        (Save(seen.(mem := Append(m, e)), o), if o.SaveOk? then Receipt(e) else SaveRaised)
  }

  /** What workspace_manager/scheduling/chat_runs.py passes to `admit_scheduled`. */
  ghost predicate Admissible(item: Envelope, now: int) {
    && item.kind.Message? && item.scheduled && !item.started && !item.expired
    && (item.state.Unsent() || item.state.Dispatching? || item.state.Accepted?)
    && item.adopted == item.state.InFlight()
    && item.updatedAt <= now
  }

  function AdmitScheduled(p: Proc, item: Envelope, enforceLimit: bool, limits: Limits, o: Saving): (Proc, Reply) {
    if p.closing then (p, Refused(503))
    else
      var k := First(p.mem.messages, ById(item.id));
      if k < |p.mem.messages| then (p, Receipt(p.mem.messages[k]))
      else if enforceLimit && item.state.Unsent() && CountBlocking(p.mem.messages, item.tab) >= limits.maxPending
      then (p, Refused(429))
      else
        var e := item.(sequence := MaxSequence(p.mem.messages) + 1);
        (Save(p.(mem := Append(p.mem, e)), o), if o.SaveOk? then Receipt(e) else SaveRaised)
  }

  // ------------------------------------------------------------------ cancellation and completion

  function Cancel(p: Proc, tab: string, id: string, principal: string, now: int, o: Saving): (Proc, Reply) {
    if p.closing then (p, Refused(503))
    else
      var k := First(p.mem.messages, ById(id));
      if k == |p.mem.messages| || p.mem.messages[k].tab != tab || p.mem.messages[k].principal != principal
      then (p, Refused(404))
      else
        var e := p.mem.messages[k];
        if e.expired then (p, Refused(410))
        else if e.state.Cancelled? then (p, Receipt(e))
        else if !e.state.Unsent() then (p, Refused(409))
        else (Change(p, k, Cancelled, NoNote, now, o),
              if o.SaveOk? then Receipt(Stamp(e, Cancelled, NoNote, now)) else SaveRaised)
  }

  function CancelScheduled(p: Proc, id: string, release: bool, now: int, o: Saving): (Proc, Reply) {
    var k := First(p.mem.messages, ById(id));
    if k == |p.mem.messages| || !p.mem.messages[k].scheduled then (p, Done(false))
    else if p.mem.messages[k].state.Unsent() || (release && p.mem.messages[k].Blocks()) then
      (Change(p, k, Cancelled, NoNote, now, o),
       if p.closing then Refused(503) else if o.SaveOk? then Done(true) else SaveRaised)
    else (p, Done(false))
  }

  /** The state a finished turn reports. */
  function TurnState(status: string, scheduled: bool): State {
    if status == "completed" || (scheduled && (status == "success" || status == "ok")) then Completed
    else if status == "cancelled" || status == "canceled" then Cancelled
    else Failed
  }

  function TurnCompleted(p: Proc, tab: string, turn: string, status: string, now: int, o: Saving): Proc {
    if p.closing then p
    else
      var k := First(p.mem.messages, ByTurn(tab, turn));
      if k == |p.mem.messages| then p
      else Change(p, k, TurnState(status, p.mem.messages[k].scheduled), NoNote, now, o)
  }

  // ------------------------------------------------------------------ the pump

  /** How one turn of the `pump` loop ends.  `Sent` is the start of `submit`. */
  datatype Turn = Idle | Again | Raised | Preparing(i: nat) | Sent(i: nat)

  /** The head of the tab's queue, unless some entry of the tab is in flight. */
  function Pick(ms: seq<Envelope>, tab: string): Option<nat> {
    var h := First(ms, HeadOf(tab));
    if h == |ms| then None
    else if exists j | 0 <= j < |ms| :: HeadOf(tab).Hit(ms[j]) && ms[j].state.InFlight() then None
    else Some(h)
  }

  function ChangeTurn(p: Proc, i: nat, state: State, reason: Note, now: int, o: Saving, after: Turn): (Proc, Turn)
    requires i < |p.mem.messages|
  {
    (Change(p, i, state, reason, now, o), if Changed(p, o) then after else Raised)
  }

  function BeginSubmit(p: Proc, i: nat, inc: Incarnation, waitingReason: string, now: int, o: Saving): (Proc, Turn)
    requires i < |p.mem.messages|
  {
    var e := p.mem.messages[i];
    if inc != e.incarnation then ChangeTurn(p, i, Failed, IncarnationChanged, now, o, Again)
    else if waitingReason != "" then ChangeTurn(p, i, Waiting, Text(waitingReason), now, o, Idle)
    else
      ChangeTurn(p.(mem := Replace(p.mem, i, e.(attempts := e.attempts + 1))), i, Dispatching, NoNote, now, o, Sent(i))
  }

  function Dispatch(p: Proc, i: nat, t: Target, now: int, bind: Saving, o: Saving): (Proc, Turn)
    requires i < |p.mem.messages|
  {
    if t.NoTarget? then
      ChangeTurn(p, i, if t.status == 404 then Cancelled else Failed, Text(t.detail), now, o, Again)
    else
      var tab := p.mem.messages[i].tab;
      var m := Resolve(p.mem, tab, t);
      var inc := Incarnate(m, tab, t);
      var e := m.messages[i];
      if e.scheduled && e.incarnation.Unset? then
        var bound := Save(p.(mem := Replace(m, i, e.(incarnation := inc))), bind);
        if bind.SaveOk? then BeginSubmit(bound, i, inc, t.waitingReason, now, o) else (bound, Raised)
      else BeginSubmit(p.(mem := m), i, inc, t.waitingReason, now, o)
  }

  /** One turn of `pump` up to its first suspension: `prepares` says that `scheduled_prepare` is set. */
  function PumpTurn(p: Proc, tab: string, prepares: bool, t: Target, now: int, bind: Saving, o: Saving): (Proc, Turn) {
    if p.closing then (p, Idle)
    else
      var pick := Pick(p.mem.messages, tab);
      if pick.None? then (p, Idle)
      else if p.mem.messages[pick.value].scheduled && prepares then (p, Preparing(pick.value))
      else Dispatch(p, pick.value, t, now, bind, o)
  }

  /** The rest of the turn after `scheduled_prepare` has returned `reason`. */
  function Resume(p: Proc, i: nat, reason: string, t: Target, now: int, bind: Saving, o: Saving): (Proc, Turn)
    requires i < |p.mem.messages|
  {
    if !p.mem.messages[i].Blocks() then (p, Again)
    else if reason != "" then ChangeTurn(p, i, Waiting, Text(reason), now, o, Idle)
    else Dispatch(p, i, t, now, bind, o)
  }

  /** `_before_delivery`: the durable mark without which nothing reaches the provider. */
  function BeforeDelivery(p: Proc, i: nat, t: Target, o: Saving): (Proc, bool)
    requires i < |p.mem.messages|
  {
    var e := p.mem.messages[i];
    if p.closing || !e.state.Dispatching? then (p, false)
    else if e.kind.QuestionAnswer? then
      (Save(p.(mem := Replace(p.mem, i, e.(started := true))), o), o.SaveOk?)
    else if t.NoTarget? then (p, false)
    else
      var m := Resolve(p.mem, e.tab, t);
      if Incarnate(m, e.tab, t) != e.incarnation || t.waitingReason != "" then (p.(mem := m), false)
      else (Save(p.(mem := Replace(m, i, e.(started := true))), o), o.SaveOk?)
  }

  /** What `submit` raises. */
  datatype Failure = InboxFailure(status: int, detail: string) | RuntimeFailure(inFlight: bool, text: string)
    | OtherFailure(text: string) | TaskCancelled

  function Less(n: int): int { if n > 0 then n - 1 else 0 }

  /** The handler of `pump`: the new attempt count, and the state and reason to change to. */
  function AfterFailure(live: Envelope, f: Failure): (int, State, Note) {
    if live.started then (live.attempts, Uncertain, SubmissionUnconfirmed)
    else if live.scheduled && f.RuntimeFailure? then
      if f.inFlight then (Less(live.attempts), Waiting, WaitingForResponse)
      else (live.attempts, Failed, Text(f.text))
    else if live.scheduled && f.OtherFailure? then (live.attempts, Failed, Text(f.text))
    else if f.InboxFailure? && (f.status == 403 || f.status == 404) then (live.attempts, Failed, Text(f.detail))
    else if f.InboxFailure? && f.status == 409
         then (if live.scheduled then Less(live.attempts) else 0, Waiting, Text(f.detail))
    else if live.attempts >= (if live.scheduled then 13 else 12) then (live.attempts, Failed, RuntimeUnavailable)
    else (live.attempts, Waiting, WaitingForRuntime)
  }

  function SubmitFailed(p: Proc, i: nat, f: Failure, now: int, o: Saving): Proc
    requires i < |p.mem.messages|
  {
    var live := p.mem.messages[i];
    if live.state.Terminal() then p
    else
      var (attempts, state, reason) := AfterFailure(live, f);
      Change(p.(mem := Replace(p.mem, i, live.(attempts := attempts))), i, state, reason, now, o)
  }

  function SubmitReturned(p: Proc, i: nat, now: int, o: Saving): Proc
    requires i < |p.mem.messages|
  {
    if p.mem.messages[i].state.Dispatching? then Change(p, i, Accepted, NoNote, now, o) else p
  }

  // ------------------------------------------------------------------ reconciliation

  /** The entries `reconcile` keeps startup policy for. */
  function ScheduledInFlight(ms: seq<Envelope>): set<nat> {
    set i | 0 <= i < |ms| && ms[i].scheduled && (ms[i].state.Dispatching? || ms[i].state.Accepted?)
  }

  function Recovery(recovery: set<nat>, ms: seq<Envelope>, restarting: bool): set<nat> {
    if restarting then ScheduledInFlight(ms) else recovery * ScheduledInFlight(ms)
  }

  /** Does this pass read evidence for the entry?  Outside startup a scheduled entry waits ten minutes
      after its last change and a minute after the last look. */
  predicate Throttled(e: Envelope, recovering: bool, now: int) {
    && e.scheduled && (e.state.Dispatching? || e.state.Accepted?) && !recovering
    && (now - e.updatedAt < 600 || (e.recoveryCheckedAt.Some? && now - e.recoveryCheckedAt.value < 60))
  }

  predicate ReadsEvidence(e: Envelope, recovering: bool, now: int) {
    && e.kind.Message? && e.state.InFlight() && !(e.scheduled && e.state.Uncertain?)
    && !Throttled(e, recovering, now)
  }

  /** The mark the throttle leaves, in memory only. */
  function MarkRead(p: Proc, i: nat, recovering: bool, now: int): Proc
    requires i < |p.mem.messages|
  {
    var e := p.mem.messages[i];
    if e.scheduled && (e.state.Dispatching? || e.state.Accepted?) && !recovering then
      p.(mem := Replace(p.mem, i, e.(recoveryCheckedAt := Some(now))))
    else p
  }

  /** Startup takes every scheduled entry for dead; other passes ask the probe. */
  function LivenessOf(e: Envelope, proof: Proof, recovering: bool, probe: Liveness): Liveness {
    if e.scheduled && (proof.Absent? || proof.Started?) then (if recovering then Dead else probe) else Unknown
  }

  /** What the evidence says to do with an entry that has not moved since it was read. */
  function Verdict(e: Envelope, proof: Proof, liveness: Liveness, restarting: bool, now: int): Option<(State, Note)> {
    if proof.ProvenCompleted? then Some((Completed, NoNote))
    else if proof.ProvenFailed? then Some((Failed, NoNote))
    else if proof.ProvenCancelled? then Some((Cancelled, NoNote))
    else if e.scheduled then
      if !liveness.Dead? then None
      else if proof.Absent? && !e.started then Some((Queued, RecoveredBeforeDispatch))
      else Some((Uncertain, StoppedReporting))
    else if e.state.Accepted? && !proof.Live? && !restarting && now - e.updatedAt > 60 then
      Some((Uncertain, OwnershipLost))
    else if restarting && !proof.Live? then
      if proof.Absent? && !e.started && e.state.Dispatching? then Some((Queued, NoNote))
      else Some((Uncertain, NeedsReconciliation))
    else None
  }

  /** The locked part of `reconcile`: nothing happens unless state and stamp are still those observed. */
  function CommitProof(p: Proc, i: nat, seen: (State, int), proof: Proof, liveness: Liveness, restarting: bool,
                       now: int, o: Saving): Proc
    requires i < |p.mem.messages|
  {
    var e := p.mem.messages[i];
    if (e.state, e.updatedAt) != seen || e.state.Terminal() then p
    else
      var v := Verdict(e, proof, liveness, restarting, now);
      if v.None? then p else Change(p, i, v.value.0, v.value.1, now, o)
  }

  function SetState(p: Proc, ref: string, state: QuestionState, o: Saving): Proc {
    var k := FirstQuestion(p.mem.questions, ref);
    if k == |p.mem.questions| then p
    else Save(p.(mem := SetQuestion(p.mem, k, p.mem.questions[k].(state := state))), o)
  }

  /** The restarting branch of `reconcile` for an answer: the exact request may have been written. */
  function RecoverAnswer(p: Proc, i: nat, now: int, o: Saving, o2: Saving): Proc
    requires i < |p.mem.messages|
  {
    var e := p.mem.messages[i];
    if !(e.kind.QuestionAnswer? && (e.state.Dispatching? || e.state.Accepted?)) then p
    else if !e.started then Change(p, i, Queued, RecoveredAnswer, now, o)
    else
      var q := Change(p, i, Uncertain, AnswerUnreconciled, now, o);
      if Changed(p, o) then SetState(q, e.questionRef, Doubtful, o2) else q
  }

  predicate Expires(e: Envelope, now: int) {
    (e.state.Terminal() || (e.scheduled && e.state.Uncertain?)) && !e.expired && now - e.updatedAt > MONTH
  }

  function Expire(e: Envelope, now: int): Envelope {
    if Expires(e, now) then e.(body := "", expired := true) else e
  }

  function ExpireAll(ms: seq<Envelope>, now: int): seq<Envelope> {
    seq(|ms|, i requires 0 <= i < |ms| => Expire(ms[i], now))
  }

  predicate Fades(s: Store, q: Question, now: int) {
    var k := if q.answerId.Some? then First(s.messages, ById(q.answerId.value)) else |s.messages|;
    var stamp := if k < |s.messages| then s.messages[k].updatedAt else q.createdAt;
    (q.state.Resolved? || q.state.Stale?) && now - stamp > MONTH && q.Worded()
  }

  function FadeAll(s: Store, now: int): seq<Question> {
    seq(|s.questions|, k requires 0 <= k < |s.questions| =>
      if Fades(s, s.questions[k], now) then s.questions[k].Faded() else s.questions[k])
  }

  /** The last part of `reconcile`: contents expire, identities stay. */
  function ExpireStore(s: Store, now: int): Store {
    s.(messages := ExpireAll(s.messages, now), questions := FadeAll(s, now))
  }

  function ExpirePass(p: Proc, now: int, o: Saving): Proc {
    if ExpireStore(p.mem, now) != p.mem then Save(p.(mem := ExpireStore(p.mem, now)), o) else p
  }

  // ------------------------------------------------------------------ answers

  datatype AnswerCall = AnswerCall(callId: string, fingerprint: string, selected: string, body: string)

  function AnswerBlocking(ms: seq<Envelope>, tab: string): nat {
    if ms == [] then 0
    else AnswerBlocking(ms[..|ms| - 1], tab) +
         (if ms[|ms| - 1].kind.QuestionAnswer? && ms[|ms| - 1].Blocks() && ms[|ms| - 1].tab == tab then 1 else 0)
  }

  function AnswerBytes(ms: seq<Envelope>, tab: string): nat {
    if ms == [] then 0
    else AnswerBytes(ms[..|ms| - 1], tab) +
         (if ms[|ms| - 1].kind.QuestionAnswer? && ms[|ms| - 1].Blocks() && ms[|ms| - 1].tab == tab
          then |ms[|ms| - 1].body| else 0)
  }

  function NewAnswer(s: Store, q: Question, principal: string, call: AnswerCall, id: string, now: int): Envelope {
    Envelope(id, call.callId, q.tab,
             if q.mode.Native? then q.turn else if !q.terminal then call.callId else "question-answer-" + id,
             QuestionAnswer, q.ref, Queued, NoNote, NoNote, now, principal, q.incarnation, call.fingerprint, call.body,
             MaxSequence(s.messages) + 1, 0, false, false, false, None, false)
  }

  /** `claim_answer`; `callback` is the card event's key and fingerprint. */
  function ClaimAnswer(p: Proc, ref: string, principal: string, call: AnswerCall, callback: Option<(string, string)>,
                       id: string, limits: Limits, now: int, o: Saving): (Proc, Reply) {
    var s := p.mem;
    var k := FirstQuestion(s.questions, ref);
    var again := First(s.messages, AnswerByCall(call.callId));
    if p.closing then (p, Refused(503))
    else if k == |s.questions| then (p, Refused(404))
    else if callback.Some? && callback.value.0 in s.receipts then
      var prior := s.receipts[callback.value.0];
      var n := First(s.messages, ById(prior.answerId));
      (p, if prior.fingerprint != callback.value.1 then Refused(409)
          else if n < |s.messages| then Receipt(s.messages[n]) else Refused(500))
    else if again < |s.messages| then
      var e := s.messages[again];
      (p, if (e.principal, e.questionRef, e.fingerprint) != (principal, ref, call.fingerprint) then Refused(409)
          else if e.expired then Refused(410)
          else Receipt(e))
    else
      var q := s.questions[k];
      if !q.state.Open? then (p, Refused(409))
      else if AnswerBlocking(s.messages, q.tab) >= 100
              || AnswerBytes(s.messages, q.tab) + |call.selected| > limits.maxBytes then (p, Refused(429))
      else
        var e := NewAnswer(s, q, principal, call, id, now);
        (Save(p.(mem := Claim(s, k, e, callback)), o), if o.SaveOk? then Receipt(e) else SaveRaised)
  }

  /** `pump_answer` up to its suspension. */
  function AnswerBegin(p: Proc, i: nat, now: int, o: Saving): (Proc, bool)
    requires i < |p.mem.messages|
  {
    if !p.mem.messages[i].state.Unsent() || p.closing then (p, false)
    else (Change(p, i, Dispatching, NoNote, now, o), Changed(p, o))
  }

  datatype AnswerOutcome = Delivered | Busy | AnswerFailure

  function AnswerState(e: Envelope, outcome: AnswerOutcome): (State, Note) {
    if outcome.Delivered? then (Completed, NoNote)
    else if outcome.Busy? && !e.started then (Waiting, QuestionBusy)
    else (if e.started then Uncertain else Failed, AnswerUnconfirmed)
  }

  function SettledAs(s: State): QuestionState {
    if s.Completed? then Resolved else if s.Uncertain? then Doubtful else Stale
  }

  /** `pump_answer` after its suspension. */
  function AnswerEnd(p: Proc, i: nat, outcome: AnswerOutcome, now: int, o: Saving, o2: Saving): Proc
    requires i < |p.mem.messages|
  {
    var e := p.mem.messages[i];
    var (state, reason) := AnswerState(e, outcome);
    var q := Change(p, i, state, reason, now, o);
    if Changed(p, o) && !state.Waiting? then SetState(q, e.questionRef, SettledAs(state), o2) else q
  }
}
