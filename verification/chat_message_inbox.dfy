/** `ChatMessageInbox` with its fields updated in place, method by method, each proved to be the
    operation of InboxOps, InboxPump or InboxRestart that the protocol theorems are about. */
module ChatInbox {
  import opened Options
  import opened ChatMessage
  import opened InboxStore
  import opened InboxEvolution
  import opened InboxOps
  import InboxMoves
  import InboxRestart
  import InboxPump

  // ------------------------------------------------------------------ what the loops compute

  lemma FirstIs(ms: seq<Envelope>, q: Query, k: nat)
    requires k <= |ms| && (forall j | 0 <= j < k :: !q.Hit(ms[j])) && (k < |ms| ==> q.Hit(ms[k]))
    ensures First(ms, q) == k
  {
  }

  lemma FirstQuestionIs(qs: seq<Question>, ref: string, k: nat)
    requires k <= |qs| && (forall j | 0 <= j < k :: qs[j].ref != ref) && (k < |qs| ==> qs[k].ref == ref)
    ensures FirstQuestion(qs, ref) == k
  {
  }

  lemma MaxIs(ms: seq<Envelope>, m: int)
    requires m >= 0 && (forall j | 0 <= j < |ms| :: ms[j].sequence <= m)
    requires m == 0 || exists j :: 0 <= j < |ms| && ms[j].sequence == m
    ensures MaxSequence(ms) == m
  {
  }

  /** Identities decide lookups by identity. */
  lemma SameFirst(ms: seq<Envelope>, ns: seq<Envelope>, id: string)
    requires |ms| == |ns| && forall j | 0 <= j < |ms| :: ms[j].id == ns[j].id
    ensures First(ms, ById(id)) == First(ns, ById(id))
  {
    var k := First(ms, ById(id));
    assert forall j | 0 <= j < |ms| :: ById(id).Hit(ms[j]) == ById(id).Hit(ns[j]);
    FirstIs(ns, ById(id), k);
  }

  class ChatMessageInbox {
    var messages: seq<Envelope>
    var questions: seq<Question>
    var callbackReceipts: map<string, CallbackRecord>
    var callbackNonces: map<string, NonceRecord>
    var epochs: map<Key, nat>
    var conversations: map<Key, string>
    var committed: Store
    var file: Store
    var closing: bool
    var restartRecovery: set<nat>

    ghost function Memory(): Store
      reads this
    {
      Store(messages, questions, callbackReceipts, callbackNonces, epochs, conversations)
    }

    ghost function View(): Proc
      reads this
    {
      Proc(Memory(), committed, file, closing)
    }

    /** `__init__` on a file that exists; a file that `_restore` refuses makes no inbox.  A payload of
        version 1 is kept at the backup path, unless one is there already, and then saved anew; if that save
        fails there is no inbox either. */
    static method Open(payload: Payload, backup: Option<Payload>, o: Saving)
        returns (inbox: ChatMessageInbox?, kept: Option<Payload>)
      ensures inbox != null <==> Restore(payload).Loaded? && (payload.version == 1 ==> o.SaveOk?)
      ensures inbox != null ==>
                && fresh(inbox) && inbox.restartRecovery == {}
                && inbox.View() == Proc(Restore(payload).store, Restore(payload).store, Restore(payload).store, false)
      ensures kept == if Restore(payload).Loaded? && payload.version == 1 && backup.None? then Some(payload) else backup
    {
      hide Restore, Save;
      kept := backup;
      var made := new ChatMessageInbox();
      var intact := made.RestoreFrom(payload);
      if !intact { return null, kept; }
      var store := made.Contents();
      made.file, made.committed := store, store;
      if payload.version == 1 {
        if kept.None? { kept := Some(payload); }
        ghost var before := made.View();
        var raised := made.SaveFile(o);
        if raised { return null, kept; }
        SavedFully(before);
      }
      inbox := made;
    }

    method Contents() returns (payload: Store)
      ensures payload == Memory()
    {
      payload := Store(messages, questions, callbackReceipts, callbackNonces, epochs, conversations);
    }

    constructor ()
      ensures View() == Proc(EMPTY, EMPTY, EMPTY, false) && restartRecovery == {}
    {
      messages, questions := [], [];
      callbackReceipts, callbackNonces, epochs, conversations := map[], map[], map[], map[];
      committed, file, closing, restartRecovery := EMPTY, EMPTY, false, {};
    }

    // ---------------------------------------------------------------- lookups

    method Find(q: Query) returns (k: nat)
      ensures k == First(messages, q)
    {
      k := 0;
      while k < |messages| && !q.Hit(messages[k])
        invariant k <= |messages|
        invariant forall j | 0 <= j < k :: !q.Hit(messages[j])
      {
        k := k + 1;
      }
      FirstIs(messages, q, k);
    }

    method FindQuestion(ref: string) returns (k: nat)
      ensures k == FirstQuestion(questions, ref)
    {
      k := 0;
      while k < |questions| && questions[k].ref != ref
        invariant k <= |questions|
        invariant forall j | 0 <= j < k :: questions[j].ref != ref
      {
        k := k + 1;
      }
      FirstQuestionIs(questions, ref, k);
    }

    method NextSequence() returns (n: int)
      ensures n == MaxSequence(messages) + 1
    {
      var m := 0;
      for i := 0 to |messages|
        invariant m >= 0 && forall j | 0 <= j < i :: messages[j].sequence <= m
        invariant m == 0 || exists j :: 0 <= j < i && messages[j].sequence == m
      {
        if messages[i].sequence > m { m := messages[i].sequence; }
      }
      MaxIs(messages, m);
      n := m + 1;
    }

    /** The number and the bytes of the messages that block a tab. */
    method Pending(tab: string) returns (count: nat, bytes: nat)
      ensures count == CountBlocking(messages, tab) && bytes == BlockingBytes(messages, tab)
    {
      count, bytes := 0, 0;
      for i := 0 to |messages|
        invariant count == CountBlocking(messages[..i], tab) && bytes == BlockingBytes(messages[..i], tab)
      {
        assert messages[..i + 1][..i] == messages[..i];
        if messages[i].tab == tab && messages[i].Blocks() {
          count, bytes := count + 1, bytes + |messages[i].body|;
        }
      }
      assert messages[..|messages|] == messages;
    }

    method PendingAnswers(tab: string) returns (count: nat, bytes: nat)
      ensures count == AnswerBlocking(messages, tab) && bytes == AnswerBytes(messages, tab)
    {
      count, bytes := 0, 0;
      for i := 0 to |messages|
        invariant count == AnswerBlocking(messages[..i], tab) && bytes == AnswerBytes(messages[..i], tab)
      {
        assert messages[..i + 1][..i] == messages[..i];
        if messages[i].kind.QuestionAnswer? && messages[i].Blocks() && messages[i].tab == tab {
          count, bytes := count + 1, bytes + |messages[i].body|;
        }
      }
      assert messages[..|messages|] == messages;
    }

    // ---------------------------------------------------------------- saving and restoring

    /** The checks of `_restore`, one loop each. */
    static method OwnershipHolds(ms: seq<Envelope>, qs: seq<Question>) returns (holds: bool)
      ensures holds <==> forall q | q in qs :: Intact(ms, q)
    {
      for k := 0 to |qs|
        invariant forall j | 0 <= j < k :: Intact(ms, qs[j])
      {
        if !Intact(ms, qs[k]) {
          assert qs[k] in qs;
          return false;
        }
      }
      holds := true;
    }

    static method TargetsExist(ms: seq<Envelope>, refs: set<string>) returns (exist: bool)
      ensures exist <==> forall m | m in ms :: m.kind.QuestionAnswer? ==> m.questionRef in refs
    {
      for i := 0 to |ms|
        invariant forall j | 0 <= j < i :: ms[j].kind.QuestionAnswer? ==> ms[j].questionRef in refs
      {
        if ms[i].kind.QuestionAnswer? && ms[i].questionRef !in refs {
          assert ms[i] in ms;
          return false;
        }
      }
      exist := true;
    }

    static method ReceiptsOwned(receipts: map<string, CallbackRecord>, ids: set<string>) returns (owned: bool)
      ensures owned <==> forall c | c in receipts :: receipts[c].answerId in ids
    {
      var keys := receipts.Keys;
      while keys != {}
        invariant keys <= receipts.Keys
        invariant forall c | c in receipts && c !in keys :: receipts[c].answerId in ids
        decreases |keys|
      {
        var c :| c in keys;
        if receipts[c].answerId !in ids { return false; }
        keys := keys - {c};
      }
      owned := true;
    }

    static method NoncesReadable(nonces: map<string, NonceRecord>) returns (readable: bool)
      ensures readable <==> forall c | c in nonces :: nonces[c].Intact()
    {
      var keys := nonces.Keys;
      while keys != {}
        invariant keys <= nonces.Keys
        invariant forall c | c in nonces && c !in keys :: nonces[c].Intact()
        decreases |keys|
      {
        var c :| c in keys;
        if !nonces[c].Intact() { return false; }
        keys := keys - {c};
      }
      readable := true;
    }

    /** `_restore`: a refused payload leaves the dictionaries as they were. */
    method RestoreFrom(p: Payload) returns (intact: bool)
      modifies this`messages, this`questions, this`callbackReceipts, this`callbackNonces, this`epochs,
               this`conversations
      ensures intact == Restore(p).Loaded?
      ensures Memory() == if intact then Restore(p).store else old(Memory())
    {
      hide Intact, Ids, Refs;
      intact := false;
      if p.version != 1 && p.version != 2 { return; }
      if |Ids(p.messages)| != |p.messages| { return; }
      if |Refs(p.questions)| != |p.questions| { return; }
      var holds := OwnershipHolds(p.messages, p.questions);
      if !holds { return; }
      var exist := TargetsExist(p.messages, Refs(p.questions));
      if !exist { return; }
      var owned := ReceiptsOwned(p.receipts, Ids(p.messages));
      if !owned { return; }
      var readable := NoncesReadable(p.nonces);
      if !readable { return; }
      messages, questions, callbackReceipts, callbackNonces := p.messages, p.questions, p.receipts, p.nonces;
      epochs, conversations := p.epochs, p.conversations;
      intact := true;
    }

    /** `_save` */
    method SaveFile(o: Saving) returns (raised: bool)
      modifies this
      ensures View() == Save(old(View()), o) && raised == !o.SaveOk? && restartRecovery == old(restartRecovery)
    {
      hide Restore;
      var payload := Store(messages, questions, callbackReceipts, callbackNonces, epochs, conversations);
      if o.SaveOk? || o.FailsAfterReplace? {
        file := payload;
      }
      if !o.SaveOk? {
        closing := true;
        var intact := RestoreFrom(Dump(committed));
        return true;
      }
      committed := payload;
      raised := false;
    }

    /** `_change` */
    method ChangeState(i: nat, state: State, reason: Note, now: int, o: Saving) returns (raised: bool)
      requires i < |messages|
      modifies this
      ensures View() == Change(old(View()), i, state, reason, now, o)
      ensures raised == !Changed(old(View()), o) && restartRecovery == old(restartRecovery)
    {
      hide Save;
      if closing { return true; }
      messages := messages[i := Stamp(messages[i], state, reason, now)];
      raised := SaveFile(o);
    }

    /** `_target` */
    method ResolveTarget(tab: string, t: Target) returns (inc: Incarnation)
      requires t.Found?
      modifies this`epochs, this`conversations
      ensures Memory() == Resolve(old(Memory()), tab, t) && inc == Incarnate(Memory(), tab, t)
    {
      var key := (tab, t.base);
      var pinned := if key in conversations then conversations[key] else "";
      if pinned != "" && t.conversation != pinned {
        epochs := epochs[key := (if key in epochs then epochs[key] else 0) + 1];
        conversations := conversations[key := t.conversation];
      } else if pinned == "" && t.conversation != "" {
        conversations := conversations[key := t.conversation];
      }
      inc := At(t.base, if key in epochs then epochs[key] else 0);
    }

    // ---------------------------------------------------------------- admission

    method Send(tab: string, principal: string, call: Call, id: string, t: Target, limits: Limits, now: int, o: Saving)
                returns (reply: Reply)
      modifies this
      ensures (View(), reply) == Enqueue(old(View()), tab, principal, call, id, t, limits, now, o)
      ensures restartRecovery == old(restartRecovery)
    {
      hide Save, Resolve, First, MaxSequence, CountBlocking, BlockingBytes;
      if closing { return Refused(503); }
      if t.NoTarget? { return Refused(t.status); }
      var inc := ResolveTarget(tab, t);
      var k := Find(ByCall(principal, tab, inc, call.callId));
      if k < |messages| {
        var item := messages[k];
        if item.fingerprint != call.fingerprint { return Refused(409); }
        if item.expired { return Refused(410); }
        return Receipt(item);
      }
      if t.waitingReason == "archived" { return Refused(409); }
      var pending, bytes := Pending(tab);
      if pending >= limits.maxPending || bytes + |call.body| > limits.maxBytes { return Refused(429); }
      var sequence := NextSequence();
      var item := Envelope(id, call.callId, tab, "hub-message-" + id, Message, "", Queued, NoNote, NoNote, now,
                           principal, inc, call.fingerprint, call.body, sequence, 0, false, false, false, None, false);
      messages := messages + [item];
      var raised := SaveFile(o);
      reply := if raised then SaveRaised else Receipt(item);
    }

    method SendScheduled(item: Envelope, enforceLimit: bool, limits: Limits, o: Saving) returns (reply: Reply)
      modifies this
      ensures (View(), reply) == AdmitScheduled(old(View()), item, enforceLimit, limits, o)
      ensures restartRecovery == old(restartRecovery)
    {
      hide Save, First, MaxSequence, CountBlocking, BlockingBytes;
      if closing { return Refused(503); }
      var k := Find(ById(item.id));
      if k < |messages| { return Receipt(messages[k]); }
      var sequence := NextSequence();
      var numbered := item.(sequence := sequence);
      var pending, bytes := Pending(item.tab);
      if enforceLimit && item.state.Unsent() && pending >= limits.maxPending { return Refused(429); }
      messages := messages + [numbered];
      var raised := SaveFile(o);
      reply := if raised then SaveRaised else Receipt(numbered);
    }

    method CancelSend(tab: string, id: string, principal: string, now: int, o: Saving) returns (reply: Reply)
      modifies this
      ensures (View(), reply) == Cancel(old(View()), tab, id, principal, now, o)
      ensures restartRecovery == old(restartRecovery)
    {
      hide Change, First;
      if closing { return Refused(503); }
      var k := Find(ById(id));
      if k == |messages| || messages[k].tab != tab || messages[k].principal != principal { return Refused(404); }
      var item := messages[k];
      if item.expired { return Refused(410); }
      if item.state.Cancelled? { return Receipt(item); }
      if !item.state.Unsent() { return Refused(409); }
      var raised := ChangeState(k, Cancelled, NoNote, now, o);
      reply := if raised then SaveRaised else Receipt(Stamp(item, Cancelled, NoNote, now));
    }

    method CancelRun(id: string, release: bool, now: int, o: Saving) returns (reply: Reply)
      modifies this
      ensures (View(), reply) == CancelScheduled(old(View()), id, release, now, o)
      ensures restartRecovery == old(restartRecovery)
    {
      hide Change, First;
      var k := Find(ById(id));
      if k == |messages| || !messages[k].scheduled { return Done(false); }
      if messages[k].state.Unsent() || (release && messages[k].Blocks()) {
        var closed := closing;
        var raised := ChangeState(k, Cancelled, NoNote, now, o);
        return if closed then Refused(503) else if raised then SaveRaised else Done(true);
      }
      reply := Done(false);
    }

    /** `completed` */
    method Complete(tab: string, turn: string, status: string, now: int, o: Saving)
      modifies this
      ensures View() == TurnCompleted(old(View()), tab, turn, status, now, o)
      ensures restartRecovery == old(restartRecovery)
    {
      hide Change, First;
      if closing { return; }
      var k := Find(ByTurn(tab, turn));
      if k < |messages| {
        var raised := ChangeState(k, TurnState(status, messages[k].scheduled), NoNote, now, o);
      }
    }

    // ---------------------------------------------------------------- delivery

    /** The head of `sorted(active, key=sequence)`, unless something on the tab is in flight. */
    method PickHead(tab: string) returns (pick: Option<nat>)
      requires InboxPump.Sequenced(messages)
      ensures pick == Pick(messages, tab)
    {
      var busy := false;
      pick := None;
      for i := 0 to |messages|
        invariant pick.Some? ==> pick.value < i && HeadOf(tab).Hit(messages[pick.value])
        invariant forall j | 0 <= j < i && HeadOf(tab).Hit(messages[j]) :: pick.Some? && pick.value <= j
        invariant busy <==> exists j :: 0 <= j < i && HeadOf(tab).Hit(messages[j]) && messages[j].state.InFlight()
      {
        if HeadOf(tab).Hit(messages[i]) {
          assert pick.Some? ==> messages[pick.value].sequence < messages[i].sequence;
          if pick.None? || messages[i].sequence < messages[pick.value].sequence { pick := Some(i); }
          if messages[i].state.InFlight() { busy := true; }
        }
      }
      FirstIs(messages, HeadOf(tab), if pick.Some? then pick.value else |messages|);
      if busy { pick := None; }
    }

    method TurnChange(i: nat, state: State, reason: Note, now: int, o: Saving, after: Turn) returns (turn: Turn)
      requires i < |messages|
      modifies this
      ensures (View(), turn) == ChangeTurn(old(View()), i, state, reason, now, o, after)
      ensures restartRecovery == old(restartRecovery)
    {
      hide Change;
      var raised := ChangeState(i, state, reason, now, o);
      turn := if raised then Raised else after;
    }

    /** The turn of `pump` from `_target` to the start of `submit`. */
    method DispatchHead(i: nat, t: Target, now: int, bind: Saving, o: Saving) returns (turn: Turn)
      requires i < |messages|
      modifies this
      ensures (View(), turn) == Dispatch(old(View()), i, t, now, bind, o)
      ensures restartRecovery == old(restartRecovery)
    {
      hide Save, Resolve, Restore, ChangeTurn, BeginSubmit;
      if t.NoTarget? {
        turn := TurnChange(i, if t.status == 404 then Cancelled else Failed, Text(t.detail), now, o, Again);
        return;
      }
      InboxMoves.ResolveAhead(Memory(), messages[i].tab, t);
      var inc := ResolveTarget(messages[i].tab, t);
      if messages[i].scheduled && messages[i].incarnation.Unset? {
        messages := messages[i := messages[i].(incarnation := inc)];
        ghost var bound := View();
        var raised := SaveFile(bind);
        if raised { return Raised; }
        SavedMemory(bound);
      }
      turn := BeginHead(i, inc, t.waitingReason, now, o);
    }

    method BeginHead(i: nat, inc: Incarnation, waitingReason: string, now: int, o: Saving) returns (turn: Turn)
      requires i < |messages|
      modifies this
      ensures (View(), turn) == BeginSubmit(old(View()), i, inc, waitingReason, now, o)
      ensures restartRecovery == old(restartRecovery)
    {
      hide ChangeTurn;
      if inc != messages[i].incarnation {
        turn := TurnChange(i, Failed, IncarnationChanged, now, o, Again);
      } else if waitingReason != "" {
        turn := TurnChange(i, Waiting, Text(waitingReason), now, o, Idle);
      } else {
        messages := messages[i := messages[i].(attempts := messages[i].attempts + 1)];
        turn := TurnChange(i, Dispatching, NoNote, now, o, Sent(i));
      }
    }

    static lemma SavedFully(p: Proc)
      ensures Save(p, SaveOk) == p.(committed := p.mem, disk := p.mem)
    {
    }

    static lemma SavedMemory(p: Proc)
      ensures Save(p, SaveOk).mem == p.mem
    {
    }

    /** `pump` up to its first suspension.  The loop is the source's; it ends because every round that
        goes on has finished off one message that blocked the tab. */
    method Pump(tab: string, inputs: nat -> InboxPump.TurnInput) returns (turn: Turn)
      requires InboxPump.Sequenced(messages)
      modifies this
      ensures (View(), turn) == InboxPump.PumpLoop(old(View()), tab, inputs, 0)
      ensures restartRecovery == old(restartRecovery)
    {
      hide Dispatch, Pick, CountBlocking, InboxPump.Sequenced;
      var k: nat := 0;
      while !closing
        invariant InboxPump.Sequenced(messages) && restartRecovery == old(restartRecovery)
        invariant InboxPump.PumpLoop(old(View()), tab, inputs, 0) == InboxPump.PumpLoop(View(), tab, inputs, k)
        decreases CountBlocking(messages, tab)
      {
        ghost var before := View();
        var x := inputs(k);
        var pick := PickHead(tab);
        if pick.None? { return Idle; }
        PickInRange(messages, tab);
        if messages[pick.value].scheduled && x.prepares { return Preparing(pick.value); }
        var r := DispatchHead(pick.value, x.t, x.now, x.bind, x.o);
        if r != Again { return r; }
        InboxPump.AgainLowersCount(before, tab, x);
        InboxPump.AgainKeepsSequence(before, tab, x);
        k := k + 1;
      }
      turn := Idle;
    }

    static lemma PickInRange(ms: seq<Envelope>, tab: string)
      ensures Pick(ms, tab).Some? ==> Pick(ms, tab).value < |ms|
    {
    }

    /** The turn of `pump` after `scheduled_prepare` has returned. */
    method ResumeHead(i: nat, reason: string, t: Target, now: int, bind: Saving, o: Saving) returns (turn: Turn)
      requires i < |messages|
      modifies this
      ensures (View(), turn) == Resume(old(View()), i, reason, t, now, bind, o)
      ensures restartRecovery == old(restartRecovery)
    {
      hide Dispatch, ChangeTurn;
      if !messages[i].Blocks() { return Again; }
      if reason != "" {
        turn := TurnChange(i, Waiting, Text(reason), now, o, Idle);
      } else {
        turn := DispatchHead(i, t, now, bind, o);
      }
    }

    /** `_before_delivery`: does it return? */
    method MarkStarted(i: nat, t: Target, o: Saving) returns (clear: bool)
      requires i < |messages|
      modifies this
      ensures (View(), clear) == BeforeDelivery(old(View()), i, t, o) && restartRecovery == old(restartRecovery)
    {
      hide Save, Resolve;
      if closing || !messages[i].state.Dispatching? { return false; }
      if !messages[i].kind.QuestionAnswer? {
        if t.NoTarget? { return false; }
        InboxMoves.ResolveAhead(Memory(), messages[i].tab, t);
        var current := ResolveTarget(messages[i].tab, t);
        if current != messages[i].incarnation || t.waitingReason != "" { return false; }
      }
      messages := messages[i := messages[i].(started := true)];
      var raised := SaveFile(o);
      clear := !raised;
    }

    /** The branches of the handler of `pump`. */
    static method WeighFailure(live: Envelope, f: Failure) returns (attempts: int, state: State, reason: Note)
      ensures (attempts, state, reason) == AfterFailure(live, f)
    {
      attempts, state, reason := live.attempts, Waiting, WaitingForRuntime;
      if live.started {
        state, reason := Uncertain, SubmissionUnconfirmed;
      } else if live.scheduled && f.RuntimeFailure? {
        if f.inFlight {
          attempts, reason := Less(live.attempts), WaitingForResponse;
        } else {
          state, reason := Failed, Text(f.text);
        }
      } else if live.scheduled && f.OtherFailure? {
        state, reason := Failed, Text(f.text);
      } else if f.InboxFailure? && (f.status == 403 || f.status == 404) {
        state, reason := Failed, Text(f.detail);
      } else if f.InboxFailure? && f.status == 409 {
        attempts, reason := if live.scheduled then Less(live.attempts) else 0, Text(f.detail);
      } else if live.attempts >= (if live.scheduled then 13 else 12) {
        state, reason := Failed, RuntimeUnavailable;
      }
    }

    /** The handler of `pump` for a `submit` that raised. */
    method SubmitRaised(i: nat, f: Failure, now: int, o: Saving)
      requires i < |messages|
      modifies this
      ensures View() == SubmitFailed(old(View()), i, f, now, o) && restartRecovery == old(restartRecovery)
    {
      hide Change, AfterFailure;
      var live := messages[i];
      if live.state.Terminal() { return; }
      var attempts, state, reason := WeighFailure(live, f);
      messages := messages[i := live.(attempts := attempts)];
      var raised := ChangeState(i, state, reason, now, o);
    }

    method SubmitDone(i: nat, now: int, o: Saving)
      requires i < |messages|
      modifies this
      ensures View() == SubmitReturned(old(View()), i, now, o) && restartRecovery == old(restartRecovery)
    {
      hide Change;
      if messages[i].state.Dispatching? {
        var raised := ChangeState(i, Accepted, NoNote, now, o);
      }
    }

    // ---------------------------------------------------------------- reconciliation

    method SetQuestionState(ref: string, state: QuestionState, o: Saving) returns (raised: bool)
      modifies this
      ensures View() == SetState(old(View()), ref, state, o) && restartRecovery == old(restartRecovery)
      ensures raised == (FirstQuestion(old(questions), ref) < |old(questions)| && !o.SaveOk?)
    {
      hide Save, FirstQuestion;
      var k := FindQuestion(ref);
      if k == |questions| { return false; }
      questions := questions[k := questions[k].(state := state)];
      raised := SaveFile(o);
    }

    /** The turn of the loop of `reconcile` for one entry. */
    method ExamineEntry(i: nat, look: InboxRestart.Look, restarting: bool, current: int) returns (raised: bool)
      requires i < |messages|
      modifies this
      ensures InboxRestart.Pass(View(), restartRecovery, raised)
              == InboxRestart.Examine(InboxRestart.Pass(old(View()), old(restartRecovery), false), i, look, restarting,
                current)
    {
      hide Change, SetState, FirstQuestion, Verdict;
      var entry := messages[i];
      if entry.kind.QuestionAnswer? {
        raised := false;
        if restarting && InboxRestart.Halfway(entry) {
          if !entry.started {
            raised := ChangeState(i, Queued, RecoveredAnswer, look.at, look.o);
          } else {
            ghost var before := View();
            raised := ChangeState(i, Uncertain, AnswerUnreconciled, look.at, look.o);
            if !raised {
              QuestionsStay(before, i, Uncertain, AnswerUnreconciled, look.at, look.o);
              raised := SetQuestionState(entry.questionRef, Doubtful, look.o2);
            }
          }
        }
        return;
      }
      if !ReadsEvidence(entry, i in restartRecovery, current) { return false; }
      if entry.scheduled && (entry.state.Dispatching? || entry.state.Accepted?) && i !in restartRecovery {
        messages := messages[i := entry.(recoveryCheckedAt := Some(current))];
      }
      if look.proof.None? && entry.scheduled { return false; }
      var proof := if look.proof.None? then Started else look.proof.value;
      var liveness := LivenessOf(entry, proof, i in restartRecovery, look.probe);
      restartRecovery := restartRecovery - {i};
      var verdict := Verdict(messages[i], proof, liveness, restarting, look.at);
      if verdict.None? { return false; }
      raised := ChangeState(i, verdict.value.0, verdict.value.1, look.at, look.o);
    }

    static lemma QuestionsStay(p: Proc, i: nat, state: State, reason: Note, now: int, o: Saving)
      requires i < |p.mem.messages| && Changed(p, o)
      ensures Change(p, i, state, reason, now, o).mem.questions == p.mem.questions
    {
    }

    method ExpireMessages(now: int) returns (changed: bool)
      modifies this`messages
      ensures messages == ExpireAll(old(messages), now)
      ensures changed <==> exists j :: 0 <= j < |messages| && Expires(old(messages)[j], now)
    {
      ghost var was := messages;
      changed := false;
      for i := 0 to |messages|
        invariant |messages| == |was|
        invariant forall j | 0 <= j < i :: messages[j] == Expire(was[j], now)
        invariant forall j | i <= j < |messages| :: messages[j] == was[j]
        invariant changed <==> exists j :: 0 <= j < i && Expires(was[j], now)
      {
        if Expires(messages[i], now) {
          messages := messages[i := messages[i].(body := "", expired := true)];
          changed := true;
        }
      }
    }

    method FadeQuestions(ghost was: Store, now: int) returns (changed: bool)
      requires questions == was.questions && messages == ExpireAll(was.messages, now)
      modifies this`questions
      ensures questions == FadeAll(was, now)
      ensures changed <==> exists k :: 0 <= k < |questions| && Fades(was, was.questions[k], now)
    {
      hide First;
      changed := false;
      for k := 0 to |questions|
        invariant |questions| == |was.questions|
        invariant forall j | 0 <= j < k :: questions[j] == FadeAll(was, now)[j]
        invariant forall j | k <= j < |questions| :: questions[j] == was.questions[j]
        invariant changed <==> exists j :: 0 <= j < k && Fades(was, was.questions[j], now)
      {
        var q := questions[k];
        var n := |messages|;
        if q.answerId.Some? {
          n := Find(ById(q.answerId.value));
          SameFirst(was.messages, messages, q.answerId.value);
        }
        var stamp := if n < |messages| then messages[n].updatedAt else q.createdAt;
        if (q.state.Resolved? || q.state.Stale?) && now - stamp > MONTH && q.Worded() {
          questions := questions[k := q.Faded()];
          changed := true;
        }
      }
    }

    /** The last part of `reconcile`. */
    method ExpireContents(now: int, o: Saving) returns (raised: bool)
      modifies this
      ensures View() == ExpirePass(old(View()), now, o) && restartRecovery == old(restartRecovery)
      ensures raised == (ExpireStore(old(Memory()), now) != old(Memory()) && !o.SaveOk?)
    {
      hide Save, Expires, Fades, Expire;
      ghost var was := Memory();
      ChangedMeans(was, now);
      var aged := ExpireMessages(now);
      var faded := FadeQuestions(was, now);
      assert Memory() == ExpireStore(was, now);
      raised := false;
      if aged || faded { raised := SaveFile(o); }
    }

    static lemma ChangedMeans(s: Store, now: int)
      ensures ExpireStore(s, now) != s <==>
                (exists j :: 0 <= j < |s.messages| && Expires(s.messages[j], now))
                  || (exists k :: 0 <= k < |s.questions| && Fades(s, s.questions[k], now))
    {
      hide First;
      var b := ExpireStore(s, now);
      if j :| 0 <= j < |s.messages| && Expires(s.messages[j], now) { assert b.messages[j] != s.messages[j]; }
      if k :| 0 <= k < |s.questions| && Fades(s, s.questions[k], now) { assert b.questions[k] != s.questions[k]; }
      if (forall j | 0 <= j < |s.messages| :: !Expires(s.messages[j], now))
        && (forall k | 0 <= k < |s.questions| :: !Fades(s, s.questions[k], now)) {
        assert b.messages == s.messages && b.questions == s.questions;
      }
    }

    /** `reconcile` without interruption: the loop over a copy of the entries, then the expiry. */
    method Reconcile(looks: seq<InboxRestart.Look>, restarting: bool, current: int, at: int, o: Saving)
                     returns (raised: bool)
      requires |looks| == |messages|
      modifies this
      ensures InboxRestart.Pass(View(), restartRecovery, raised)
              == InboxRestart.Reconcile(old(View()), old(restartRecovery), looks, restarting, current, at, o)
    {
      hide InboxRestart.Examine, ExpirePass, ExpireStore;
      ghost var start := InboxRestart.Pass(View(), Recovery(restartRecovery, messages, restarting), false);
      var inFlight := ScheduledInFlight(messages);
      restartRecovery := restartRecovery * inFlight;
      if restarting { restartRecovery := restartRecovery + inFlight; }
      assert restartRecovery == start.recovery;
      raised := false;
      var i := 0;
      while i < |looks| && !raised
        invariant i <= |looks| && (!raised ==> |messages| == |looks|)
        invariant InboxRestart.ExamineFrom(start, 0, looks, restarting, current)
                  == InboxRestart.ExamineFrom(InboxRestart.Pass(View(), restartRecovery, raised), i, looks, restarting,
                    current)
      {
        raised := ExamineEntry(i, looks[i], restarting, current);
        i := i + 1;
      }
      if !raised { raised := ExpireContents(at, o); }
    }

    // ---------------------------------------------------------------- answers

    method ClaimQuestion(ref: string, principal: string, call: AnswerCall, callback: Option<(string, string)>,
                         id: string, limits: Limits, now: int, o: Saving) returns (reply: Reply)
      modifies this
      ensures (View(), reply) == ClaimAnswer(old(View()), ref, principal, call, callback, id, limits, now, o)
      ensures restartRecovery == old(restartRecovery)
    {
      hide Save, First, FirstQuestion, AnswerBlocking, AnswerBytes, NewAnswer, Claim;
      if closing { return Refused(503); }
      var k := FindQuestion(ref);
      if k == |questions| { return Refused(404); }
      if callback.Some? && callback.value.0 in callbackReceipts {
        var prior := callbackReceipts[callback.value.0];
        if prior.fingerprint != callback.value.1 { return Refused(409); }
        var n := Find(ById(prior.answerId));
        return if n < |messages| then Receipt(messages[n]) else Refused(500);
      }
      var again := Find(AnswerByCall(call.callId));
      if again < |messages| {
        var existing := messages[again];
        if (existing.principal, existing.questionRef, existing.fingerprint) != (principal, ref, call.fingerprint) {
          return Refused(409);
        }
        if existing.expired { return Refused(410); }
        return Receipt(existing);
      }
      var q := questions[k];
      if !q.state.Open? { return Refused(409); }
      var pending, bytes := PendingAnswers(q.tab);
      if pending >= 100 || bytes + |call.selected| > limits.maxBytes { return Refused(429); }
      reply := StoreAnswer(k, principal, call, callback, id, now, o);
    }

    /** The end of `claim_answer`: the answer, its ownership and the callback receipt, saved together. */
    method StoreAnswer(k: nat, principal: string, call: AnswerCall, callback: Option<(string, string)>,
                       id: string, now: int, o: Saving) returns (reply: Reply)
      requires k < |questions|
      modifies this
      ensures var e := NewAnswer(old(Memory()), old(questions[k]), principal, call, id, now);
              && View() == Save(old(View()).(mem := Claim(old(Memory()), k, e, callback)), o)
              && reply == if o.SaveOk? then Receipt(e) else SaveRaised
      ensures restartRecovery == old(restartRecovery)
    {
      hide Save, MaxSequence;
      var q := questions[k];
      var sequence := NextSequence();
      var turn := if q.mode.Native? then q.turn else if !q.terminal then call.callId else "question-answer-" + id;
      var item := Envelope(id, call.callId, q.tab, turn, QuestionAnswer, q.ref, Queued, NoNote, NoNote, now, principal,
                           q.incarnation, call.fingerprint, call.body, sequence, 0, false, false, false, None, false);
      if callback.Some? {
        callbackReceipts := callbackReceipts[callback.value.0 := CallbackRecord(callback.value.1, id)];
      }
      questions := questions[k := q.(state := Claimed, answerId := Some(id))];
      messages := messages + [item];
      var raised := SaveFile(o);
      reply := if raised then SaveRaised else Receipt(item);
    }

    /** `pump_answer` up to its suspension: does it go on to `answer_submit`? */
    method BeginAnswer(i: nat, now: int, o: Saving) returns (submits: bool)
      requires i < |messages|
      modifies this
      ensures (View(), submits) == AnswerBegin(old(View()), i, now, o) && restartRecovery == old(restartRecovery)
    {
      hide Change;
      if !messages[i].state.Unsent() || closing { return false; }
      var raised := ChangeState(i, Dispatching, NoNote, now, o);
      submits := !raised;
    }

    /** `pump_answer` after its suspension. */
    method EndAnswer(i: nat, outcome: AnswerOutcome, now: int, o: Saving, o2: Saving)
      requires i < |messages|
      modifies this
      ensures View() == AnswerEnd(old(View()), i, outcome, now, o, o2) && restartRecovery == old(restartRecovery)
    {
      hide Change, SetState;
      var item := messages[i];
      var state, reason := Completed, NoNote;
      if outcome.Busy? && !item.started {
        state, reason := Waiting, QuestionBusy;
      } else if !outcome.Delivered? {
        state, reason := if item.started then Uncertain else Failed, AnswerUnconfirmed;
      }
      var raised := ChangeState(i, state, reason, now, o);
      if raised || state.Waiting? { return; }
      var ignored := SetQuestionState(item.questionRef, SettledAs(state), o2);
    }
  }
}
