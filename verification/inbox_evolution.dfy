/** What every stored state satisfies, and how one stored state may develop into another.

    `Inv` holds of the memory, of the last committed payload and of the file at all times.  `Evolves`
    is the preorder along which the committed payload moves in every step, crashes included. */
module InboxEvolution {
  import opened Options
  import opened ChatMessage
  import opened InboxStore

  // ------------------------------------------------------------------ one state

  ghost predicate Sound(m: Envelope) {
    && m.sequence >= 1
    && (m.started ==> !m.state.Unsent())
    && (m.adopted ==> m.kind.Message? && m.scheduled && !m.state.Unsent())
    && (m.Direct() ==> m.incarnation.At?)
    && (m.kind.QuestionAnswer? ==> !m.scheduled)
  }

  /** A direct send under a call id its caller had used before, for another direct send or an answer. */
  ghost predicate SameCall(m: Envelope, n: Envelope) {
    && n.Direct() && !m.scheduled
    && m.principal == n.principal && m.tab == n.tab && m.incarnation == n.incarnation && m.callId == n.callId
  }

  /** What an entry and a later one owe each other. */
  ghost predicate Compatible(m: Envelope, n: Envelope) {
    && m.sequence < n.sequence
    && !SameCall(m, n)
    && !(m.HoldsTab() && n.HoldsTab() && m.tab == n.tab)
    && !(m.kind.QuestionAnswer? && n.kind.QuestionAnswer? && m.callId == n.callId)
  }

  /** An answer envelope belongs to the question that names it, and a named question is not open. */
  ghost predicate Answers(q: Question, m: Envelope) {
    m.kind.QuestionAnswer? && m.questionRef == q.ref ==> q.answerId == Some(m.id)
  }

  ghost predicate OpenUnclaimed(q: Question) { q.state.Open? ==> q.answerId.None? }

  ghost predicate AllSound(ms: seq<Envelope>) {
    forall i {:trigger Sound(ms[i])} | 0 <= i < |ms| :: Sound(ms[i])
  }

  ghost predicate AllCompatible(ms: seq<Envelope>) {
    forall i, j {:trigger Compatible(ms[i], ms[j])} | 0 <= i < j < |ms| :: Compatible(ms[i], ms[j])
  }

  ghost predicate AllAnswers(qs: seq<Question>, ms: seq<Envelope>) {
    && (forall k, i {:trigger Answers(qs[k], ms[i])} | 0 <= k < |qs| && 0 <= i < |ms| :: Answers(qs[k], ms[i]))
    && (forall k {:trigger OpenUnclaimed(qs[k])} | 0 <= k < |qs| :: OpenUnclaimed(qs[k]))
  }

  ghost predicate Inv(s: Store) {
    && WellFormed(s)
    && AllSound(s.messages)
    && AllCompatible(s.messages)
    && AllAnswers(s.questions, s.messages)
  }

  lemma EmptyInv()
    ensures Inv(EMPTY)
  {
  }

  // ------------------------------------------------------------------ two states

  ghost predicate SameIdentity(a: Envelope, b: Envelope) {
    && a.id == b.id && a.callId == b.callId && a.tab == b.tab && a.turn == b.turn && a.kind == b.kind
    && a.questionRef == b.questionRef && a.principal == b.principal && a.fingerprint == b.fingerprint
    && a.sequence == b.sequence && a.scheduled == b.scheduled
  }

  /** What no step, restart or failed save can undo about one envelope. */
  ghost predicate Follows(a: Envelope, b: Envelope) {
    && SameIdentity(a, b)
    && (a.incarnation.At? || !a.scheduled ==> b.incarnation == a.incarnation)
    && a.updatedAt <= b.updatedAt
    && (a.updatedAt == b.updatedAt ==> b.state == a.state)
    && (a.started ==> b.started && a.Progress() <= b.Progress())
    && (a.kind.Message? && a.state.Terminal() ==>
          b.started == a.started && (b.state == a.state || (b.state.Failed? && a.scheduled && !a.started)))
    && (a.InDoubt() && a.started ==> b.state.Uncertain?)
    && (a.expired ==> b.expired)
    && (b.adopted ==> a.adopted)
  }

  ghost predicate QuestionFollows(a: Question, b: Question) {
    && a.ref == b.ref && a.tab == b.tab
    && (a.answerId.Some? ==> b.answerId == a.answerId)
    && (!a.state.Open? ==> !b.state.Open?)
  }

  /** Within one epoch a pinned conversation never changes, and epochs never go back. */
  ghost predicate PinFollows(a: Store, b: Store, key: Key) {
    && a.Epoch(key) <= b.Epoch(key)
    && (a.Epoch(key) == b.Epoch(key) && a.Pinned(key) != "" ==> b.Pinned(key) == a.Pinned(key))
  }

  ghost predicate PinsFollow(a: Store, b: Store) {
    forall key {:trigger PinFollows(a, b, key)} :: PinFollows(a, b, key)
  }

  ghost predicate MessagesFollow(a: seq<Envelope>, b: seq<Envelope>) {
    && |a| <= |b|
    && (forall i {:trigger Follows(a[i], b[i])} | 0 <= i < |a| :: Follows(a[i], b[i]))
  }

  ghost predicate QuestionsFollow(a: seq<Question>, b: seq<Question>) {
    && |a| <= |b|
    && (forall i {:trigger QuestionFollows(a[i], b[i])} | 0 <= i < |a| :: QuestionFollows(a[i], b[i]))
  }

  ghost predicate ReceiptsFollow(a: map<string, CallbackRecord>, b: map<string, CallbackRecord>) {
    forall k :: k in a ==> k in b && b[k] == a[k]
  }

  ghost predicate Evolves(a: Store, b: Store) {
    && MessagesFollow(a.messages, b.messages)
    && QuestionsFollow(a.questions, b.questions)
    && ReceiptsFollow(a.receipts, b.receipts)
    && PinsFollow(a, b)
  }

  lemma EvolvesSelf(a: Store)
    ensures Evolves(a, a)
  {
  }

  lemma EvolvesTrans(a: Store, b: Store, c: Store)
    requires Evolves(a, b) && Evolves(b, c)
    ensures Evolves(a, c)
  {
    forall i | 0 <= i < |a.messages| ensures Follows(a.messages[i], c.messages[i]) {
      assert Follows(a.messages[i], b.messages[i]) && Follows(b.messages[i], c.messages[i]);
    }
    forall i | 0 <= i < |a.questions| ensures QuestionFollows(a.questions[i], c.questions[i]) {
      assert QuestionFollows(a.questions[i], b.questions[i]) && QuestionFollows(b.questions[i], c.questions[i]);
    }
    forall key: Key ensures PinFollows(a, c, key) {
      assert PinFollows(a, b, key) && PinFollows(b, c, key);
    }
  }

  /** Only an exempt entry may leave its rest, or come to be under way or to hold its tab; only one in flight
      becomes uncertain, only one that is dispatching is marked, and every changed state is stamped. */
  ghost predicate Steps(a: Envelope, b: Envelope, now: int, exempt: bool) {
    && (a.AtRest() ==> b.state == a.state || exempt)
    && (b.Underway() ==> a.Underway() || exempt)
    && (b.HoldsTab() ==> a.HoldsTab() || exempt)
    && (b.kind.Message? && b.state.Uncertain? ==> a.state.InFlight())
    && (b.started ==> a.started || a.state.Dispatching?)
    && ((b.state == a.state && b.updatedAt == a.updatedAt) || b.updatedAt == now)
  }

  ghost predicate AllStep(a: seq<Envelope>, b: seq<Envelope>, now: int, exempt: Option<nat>)
    requires |a| <= |b|
  {
    && (forall i {:trigger Steps(a[i], b[i], now, exempt == Some(i))} | 0 <= i < |a| ::
        Steps(a[i], b[i], now, exempt == Some(i)))
    && (forall i | |a| <= i < |b| ::
          b[i].updatedAt <= now && !b[i].HoldsTab() && (b[i].Underway() ==> exempt == Some(i)))
  }

  /** One mutation of the memory that is then saved. */
  ghost predicate Legal(a: Store, b: Store, now: int, exempt: Option<nat>) {
    && Inv(b)
    && Evolves(a, b)
    && AllStep(a.messages, b.messages, now, exempt)
  }

  /** The memory may run ahead of the committed payload only in what is lost without harm: observed
      conversations, attempt counts and the throttle of recovery reads. */
  function Durable(m: Envelope): Envelope { m.(attempts := 0, recoveryCheckedAt := None) }

  ghost predicate SameDurable(a: seq<Envelope>, b: seq<Envelope>) {
    && |a| == |b|
    && (forall i {:trigger Durable(a[i])} {:trigger Durable(b[i])} | 0 <= i < |a| :: Durable(a[i]) == Durable(b[i]))
  }

  ghost predicate Ahead(committed: Store, mem: Store) {
    && SameDurable(committed.messages, mem.messages)
    && committed.questions == mem.questions
    && committed.receipts == mem.receipts
    && (NoncesIntact(committed.nonces) ==> NoncesIntact(mem.nonces))
    && PinsFollow(committed, mem)
  }

  lemma AheadTrans(a: Store, b: Store, c: Store)
    requires Ahead(a, b) && Ahead(b, c)
    ensures Ahead(a, c)
  {
    forall i | 0 <= i < |a.messages| ensures Durable(a.messages[i]) == Durable(c.messages[i]) {
      assert Durable(a.messages[i]) == Durable(b.messages[i]) && Durable(b.messages[i]) == Durable(c.messages[i]);
    }
    forall key: Key ensures PinFollows(a, c, key) {
      assert PinFollows(a, b, key) && PinFollows(b, c, key);
    }
  }

  lemma DurableMeans(a: Envelope, b: Envelope)
    requires Durable(a) == Durable(b)
    ensures b == a.(attempts := b.attempts, recoveryCheckedAt := b.recoveryCheckedAt)
    ensures Follows(a, b) && (Sound(a) ==> Sound(b))
    ensures a.Blocks() == b.Blocks() && a.Underway() == b.Underway() && a.HoldsTab() == b.HoldsTab()
  {
    assert Durable(a).state == a.state && Durable(a).incarnation == a.incarnation && Durable(a).id == a.id;
  }

  lemma AheadEvolves(a: Store, b: Store)
    requires Ahead(a, b)
    ensures Evolves(a, b)
  {
    forall i | 0 <= i < |a.messages| ensures Follows(a.messages[i], b.messages[i]) {
      assert Durable(a.messages[i]) == Durable(b.messages[i]);
      DurableMeans(a.messages[i], b.messages[i]);
    }
  }

  lemma AheadInv(a: Store, b: Store)
    requires Ahead(a, b) && Inv(a)
    ensures Inv(b)
  {
    var ms, ns := a.messages, b.messages;
    forall i | 0 <= i < |ms|
      ensures ns[i] == ms[i].(attempts := ns[i].attempts, recoveryCheckedAt := ns[i].recoveryCheckedAt) {
      assert Durable(ms[i]) == Durable(ns[i]);
      DurableMeans(ms[i], ns[i]);
    }
    SameLookups(a, b);
    forall i | 0 <= i < |ns| ensures Sound(ns[i]) { assert Sound(ms[i]); }
    forall i, j | 0 <= i < j < |ns| ensures Compatible(ns[i], ns[j]) { assert Compatible(ms[i], ms[j]); }
    forall k, i | 0 <= k < |b.questions| && 0 <= i < |ns| ensures Answers(b.questions[k], ns[i]) {
      assert Answers(a.questions[k], ms[i]);
    }
  }

  /** Well-formedness only looks at identities, kinds and question references. */
  lemma SameLookups(a: Store, b: Store)
    requires WellFormed(a) && |a.messages| == |b.messages| && a.questions == b.questions && a.receipts == b.receipts
    requires NoncesIntact(a.nonces) ==> NoncesIntact(b.nonces)
    requires forall i | 0 <= i < |a.messages| ::
               a.messages[i].id == b.messages[i].id && a.messages[i].kind == b.messages[i].kind
               && a.messages[i].questionRef == b.messages[i].questionRef
    ensures WellFormed(b)
  {
    var ms, ns := a.messages, b.messages;
    forall k | 0 <= k < |b.questions| ensures Owned(ns, b.questions[k]) {
      var q := a.questions[k];
      assert Owned(ms, q);
      if q.answerId.Some? {
        var i :| 0 <= i < |ms| && ms[i].id == q.answerId.value && ms[i].questionRef == q.ref;
        assert ns[i].id == q.answerId.value && ns[i].questionRef == q.ref;
      }
    }
    forall i | 0 <= i < |ns| ensures Targeted(b.questions, ns[i]) { assert Targeted(a.questions, ms[i]); }
    forall k | k in b.receipts ensures Named(ns, b.receipts[k].answerId) {
      assert Named(ms, a.receipts[k].answerId);
      var i :| 0 <= i < |ms| && ms[i].id == a.receipts[k].answerId;
      assert ns[i].id == a.receipts[k].answerId;
    }
  }

  // ------------------------------------------------------------------ the mutations

  function Replace(s: Store, i: nat, e: Envelope): Store
    requires i < |s.messages|
  {
    s.(messages := s.messages[i := e])
  }

  /** No other entry of `ms` than `i` holds the tab. */
  ghost predicate TabFree(ms: seq<Envelope>, tab: string, i: nat) {
    forall j | 0 <= j < |ms| && j != i :: !(ms[j].HoldsTab() && ms[j].tab == tab)
  }

  lemma ReplaceLegal(s: Store, i: nat, e: Envelope, now: int, exempt: bool)
    requires Inv(s) && i < |s.messages|
    requires Follows(s.messages[i], e) && Sound(e) && Steps(s.messages[i], e, now, exempt)
    requires e.HoldsTab() ==> s.messages[i].HoldsTab() || TabFree(s.messages, e.tab, i)
    ensures Legal(s, Replace(s, i, e), now, if exempt then Some(i) else None)
  {
    var ms, b := s.messages, Replace(s, i, e);
    var ns := b.messages;
    SameLookups(s, b);
    forall j | 0 <= j < |ns| ensures Sound(ns[j]) { assert j != i ==> Sound(ms[j]); }
    forall j, k | 0 <= j < k < |ns| ensures Compatible(ns[j], ns[k]) {
      assert Compatible(ms[j], ms[k]);
      assert Sound(ms[j]) && Sound(ms[k]);
    }
    forall k, j | 0 <= k < |b.questions| && 0 <= j < |ns| ensures Answers(b.questions[k], ns[j]) {
      assert Answers(s.questions[k], ms[j]);
    }
    forall j | 0 <= j < |ms| ensures Steps(ms[j], ns[j], now, (if exempt then Some(i) else None) == Some(j)) {}
  }

  function Append(s: Store, e: Envelope): Store { s.(messages := s.messages + [e]) }

  lemma AppendCompatible(ms: seq<Envelope>, e: Envelope)
    requires AllSound(ms) && AllCompatible(ms) && Sound(e) && !e.HoldsTab()
    requires e.sequence == MaxSequence(ms) + 1
    requires forall j | 0 <= j < |ms| :: !SameCall(ms[j], e)
    requires e.kind.QuestionAnswer? ==> First(ms, AnswerByCall(e.callId)) == |ms|
    ensures AllSound(ms + [e]) && AllCompatible(ms + [e])
  {
    hide First, MaxSequence, Sound;
    var ns := ms + [e];
    forall j | 0 <= j < |ns| ensures Sound(ns[j]) { assert j < |ms| ==> Sound(ms[j]); }
    forall j, k | 0 <= j < k < |ns| ensures Compatible(ns[j], ns[k]) {
      if k < |ms| {
        assert Compatible(ms[j], ms[k]);
      } else {
        assert !AnswerByCall(e.callId).Hit(ms[j]) || !e.kind.QuestionAnswer?;
      }
    }
  }

  lemma AppendLegal(s: Store, e: Envelope, now: int)
    requires Inv(s) && Sound(e) && e.kind.Message? && !e.HoldsTab() && e.updatedAt <= now
    requires e.sequence == MaxSequence(s.messages) + 1
    requires First(s.messages, ById(e.id)) == |s.messages|
    requires forall j | 0 <= j < |s.messages| :: !SameCall(s.messages[j], e)
    ensures Legal(s, Append(s, e), now, if e.Underway() then Some(|s.messages|) else None)
  {
    hide AllSound, AllCompatible, WellFormed, First, MaxSequence;
    var ms, b := s.messages, Append(s, e);
    var ns := b.messages;
    AppendWellFormed(s, e);
    AppendCompatible(ms, e);
    forall k, j | 0 <= k < |b.questions| && 0 <= j < |ns| ensures Answers(b.questions[k], ns[j]) {
      assert j < |ms| ==> Answers(s.questions[k], ms[j]);
    }
  }

  lemma AppendWellFormed(s: Store, e: Envelope)
    requires WellFormed(s) && First(s.messages, ById(e.id)) == |s.messages|
    requires Targeted(s.questions, e)
    ensures WellFormed(Append(s, e))
  {
    var ms, b := s.messages, Append(s, e);
    var ns := b.messages;
    assert forall j | 0 <= j < |ms| :: !ById(e.id).Hit(ms[j]);
    forall k | 0 <= k < |b.questions| ensures Owned(ns, b.questions[k]) {
      var q := s.questions[k];
      assert Owned(ms, q);
      if q.answerId.Some? {
        var i :| 0 <= i < |ms| && ms[i].id == q.answerId.value && ms[i].questionRef == q.ref;
        assert ns[i] == ms[i];
      }
    }
    forall i | 0 <= i < |ns| ensures Targeted(b.questions, ns[i]) { assert i < |ms| ==> Targeted(s.questions, ms[i]); }
    forall k | k in b.receipts ensures Named(ns, b.receipts[k].answerId) {
      assert Named(ms, s.receipts[k].answerId);
      var i :| 0 <= i < |ms| && ms[i].id == s.receipts[k].answerId;
      assert ns[i] == ms[i];
    }
  }

  /** The claim of an open question: the answer, the ownership and the receipt appear together. */
  function Claim(s: Store, k: nat, e: Envelope, callback: Option<(string, string)>): Store
    requires k < |s.questions|
  {
    s.(messages := s.messages + [e],
       questions := s.questions[k := s.questions[k].(state := Claimed, answerId := Some(e.id))],
       receipts := if callback.Some? then s.receipts[callback.value.0 := CallbackRecord(callback.value.1, e.id)]
         else s.receipts)
  }

  lemma ClaimWellFormed(s: Store, k: nat, e: Envelope, callback: Option<(string, string)>)
    requires Inv(s) && k < |s.questions| && s.questions[k].state.Open?
    requires e.kind.QuestionAnswer? && e.questionRef == s.questions[k].ref
    requires First(s.messages, ById(e.id)) == |s.messages|
    ensures WellFormed(Claim(s, k, e, callback)) && DistinctRefs(s.questions)
  {
    var ms, qs, b := s.messages, s.questions, Claim(s, k, e, callback);
    var ns, rs := b.messages, b.questions;
    assert ns[|ms|] == e;
    assert forall j | 0 <= j < |ms| :: !ById(e.id).Hit(ms[j]) && ns[j] == ms[j];
    forall n | 0 <= n < |rs| ensures Owned(ns, rs[n]) {
      if n == k {
        assert ns[|ms|].id == rs[n].answerId.value;
      } else {
        assert Owned(ms, qs[n]);
        if qs[n].answerId.Some? {
          var i :| 0 <= i < |ms| && ms[i].id == qs[n].answerId.value && ms[i].questionRef == qs[n].ref;
          assert ns[i] == ms[i];
        }
      }
    }
    forall i | 0 <= i < |ns| ensures Targeted(rs, ns[i]) {
      if i < |ms| {
        assert Targeted(qs, ms[i]);
        if ms[i].kind.QuestionAnswer? {
          var n :| 0 <= n < |qs| && qs[n].ref == ms[i].questionRef;
          assert rs[n].ref == ms[i].questionRef;
        }
      } else {
        assert rs[k].ref == e.questionRef;
      }
    }
    forall c | c in b.receipts ensures Named(ns, b.receipts[c].answerId) {
      if callback.Some? && c == callback.value.0 {
        assert ns[|ms|].id == b.receipts[c].answerId;
      } else {
        assert Named(ms, s.receipts[c].answerId);
        var i :| 0 <= i < |ms| && ms[i].id == s.receipts[c].answerId;
        assert ns[i] == ms[i];
      }
    }
  }

  lemma ClaimAnswers(qs: seq<Question>, ms: seq<Envelope>, k: nat, e: Envelope)
    requires AllAnswers(qs, ms) && DistinctRefs(qs) && k < |qs| && qs[k].state.Open? && e.questionRef == qs[k].ref
    ensures AllAnswers(qs[k := qs[k].(state := Claimed, answerId := Some(e.id))], ms + [e])
    ensures QuestionsFollow(qs, qs[k := qs[k].(state := Claimed, answerId := Some(e.id))])
  {
    var rs, ns := qs[k := qs[k].(state := Claimed, answerId := Some(e.id))], ms + [e];
    assert OpenUnclaimed(qs[k]);
    forall n, j | 0 <= n < |rs| && 0 <= j < |ns| ensures Answers(rs[n], ns[j]) {
      if j < |ms| { assert Answers(qs[n], ms[j]); }
    }
    forall n | 0 <= n < |rs| ensures OpenUnclaimed(rs[n]) { assert OpenUnclaimed(qs[n]); }
  }

  lemma ClaimLegal(s: Store, k: nat, e: Envelope, callback: Option<(string, string)>, now: int)
    requires Inv(s) && k < |s.questions| && s.questions[k].state.Open?
    requires Sound(e) && e.kind.QuestionAnswer? && e.questionRef == s.questions[k].ref && e.updatedAt <= now
    requires e.sequence == MaxSequence(s.messages) + 1
    requires First(s.messages, ById(e.id)) == |s.messages|
    requires First(s.messages, AnswerByCall(e.callId)) == |s.messages|
    requires callback.Some? ==> callback.value.0 !in s.receipts
    ensures Legal(s, Claim(s, k, e, callback), now, None)
  {
    hide AllSound, AllCompatible, AllAnswers, First, MaxSequence, WellFormed, QuestionsFollow, Sound;
    var ms, ns := s.messages, Claim(s, k, e, callback).messages;
    ClaimWellFormed(s, k, e, callback);
    AppendCompatible(ms, e);
    ClaimAnswers(s.questions, ms, k, e);
    assert forall j | 0 <= j < |ms| :: ns[j] == ms[j];
  }

  function SetQuestion(s: Store, k: nat, q: Question): Store
    requires k < |s.questions|
  {
    s.(questions := s.questions[k := q])
  }

  lemma SetQuestionLegal(s: Store, k: nat, q: Question, now: int)
    requires Inv(s) && k < |s.questions|
    requires q.ref == s.questions[k].ref && q.tab == s.questions[k].tab && q.answerId == s.questions[k].answerId
    requires q.state.Open? ==> s.questions[k].state.Open?
    requires q.state.Claimed? || q.state.Doubtful? ==> q.answerId.Some?
    ensures Legal(s, SetQuestion(s, k, q), now, None)
  {
    var ms, qs, b := s.messages, s.questions, SetQuestion(s, k, q);
    var rs := b.questions;
    forall n | 0 <= n < |rs| ensures Owned(ms, rs[n]) && OpenUnclaimed(rs[n]) {
      assert Owned(ms, qs[n]) && OpenUnclaimed(qs[n]);
    }
    forall i | 0 <= i < |ms| ensures Targeted(rs, ms[i]) {
      assert Targeted(qs, ms[i]);
      if ms[i].kind.QuestionAnswer? {
        var n :| 0 <= n < |qs| && qs[n].ref == ms[i].questionRef;
        assert rs[n].ref == ms[i].questionRef;
      }
    }
    forall n, j | 0 <= n < |rs| && 0 <= j < |ms| ensures Answers(rs[n], ms[j]) { assert Answers(qs[n], ms[j]); }
  }

  function AddQuestion(s: Store, q: Question): Store { s.(questions := s.questions + [q]) }

  lemma AddQuestionLegal(s: Store, q: Question, now: int)
    requires Inv(s) && q.state.Open? && q.answerId.None? && FirstQuestion(s.questions, q.ref) == |s.questions|
    ensures Legal(s, AddQuestion(s, q), now, None)
  {
    var ms, qs, b := s.messages, s.questions, AddQuestion(s, q);
    var rs := b.questions;
    forall n | 0 <= n < |rs| ensures Owned(ms, rs[n]) && OpenUnclaimed(rs[n]) {
      assert n < |qs| ==> Owned(ms, qs[n]) && OpenUnclaimed(qs[n]);
    }
    forall i | 0 <= i < |ms| ensures Targeted(rs, ms[i]) {
      assert Targeted(qs, ms[i]);
      if ms[i].kind.QuestionAnswer? {
        var n :| 0 <= n < |qs| && qs[n].ref == ms[i].questionRef;
        assert rs[n] == qs[n];
      }
    }
    forall n, j | 0 <= n < |rs| && 0 <= j < |ms| ensures Answers(rs[n], ms[j]) {
      if n < |qs| {
        assert Answers(qs[n], ms[j]);
      } else {
        assert Targeted(qs, ms[j]);
      }
    }
  }
}
