/** The durable part of backend/claude_hub/services/chat_message_inbox.py: what is dumped, what
    `_restore` accepts, and how a stored state may develop.

    `messages` and `questions` are the dictionaries in their insertion order, which is also the order
    of the dumped lists.  Entries are never removed, so the position of a committed entry names it for
    good.  The key `f"{tab_id}:{incarnation}"` is the pair of its parts. */
module InboxStore {
  import opened Options
  import opened ChatMessage

  type Key = (string, string)

  datatype CallbackRecord = CallbackRecord(fingerprint: string, answerId: string)

  /** `expires_at` as `float` reads it. */
  datatype Expiry = Until(at: int) | NotFinite | Unreadable

  /** A record of `callback_nonces`; the fingerprint is missing when it is no string. */
  datatype NonceRecord = NonceRecord(fingerprint: Option<string>, expiry: Expiry) {
    predicate Intact() { fingerprint.Some? && expiry.Until? }
  }

  datatype Store = Store(
    messages: seq<Envelope>, questions: seq<Question>, receipts: map<string, CallbackRecord>,
    nonces: map<string, NonceRecord>,
    epochs: map<Key, nat>, conversations: map<Key, string>)
  {
    function Epoch(key: Key): nat { if key in epochs then epochs[key] else 0 }
    function Pinned(key: Key): string { if key in conversations then conversations[key] else "" }
  }

  const EMPTY := Store([], [], map[], map[], map[], map[])

  // ------------------------------------------------------------------ lookups

  /** The searches the inbox makes over `self.messages.values()`. */
  datatype Query =
    | ById(id: string)
    | ByCall(principal: string, tab: string, incarnation: Incarnation, callId: string)
    | ByTurn(tab: string, turn: string)
    | AnswerByCall(callId: string)
    | HeadOf(tab: string)
  {
    predicate Hit(m: Envelope) {
      match this
      case ById(id) => m.id == id
      case ByCall(p, t, inc, c) => m.principal == p && m.tab == t && m.incarnation == inc && m.callId == c
      case ByTurn(t, turn) => m.tab == t && m.turn == turn && m.Blocks()
      case AnswerByCall(c) => m.kind.QuestionAnswer? && m.callId == c
      case HeadOf(t) => m.tab == t && m.Blocks() && m.kind.Message?
    }
  }

  /** The first entry a query hits, or the length when there is none. */
  function First(ms: seq<Envelope>, q: Query): (r: nat)
    ensures r <= |ms|
    ensures forall j | 0 <= j < r :: !q.Hit(ms[j])
    ensures r < |ms| ==> q.Hit(ms[r])
  {
    if ms == [] then 0 else if q.Hit(ms[0]) then 0 else 1 + First(ms[1..], q)
  }

  function FirstQuestion(qs: seq<Question>, ref: string): (r: nat)
    ensures r <= |qs|
    ensures forall j | 0 <= j < r :: qs[j].ref != ref
    ensures r < |qs| ==> qs[r].ref == ref
  {
    if qs == [] then 0 else if qs[0].ref == ref then 0 else 1 + FirstQuestion(qs[1..], ref)
  }

  /** `max(sequences, default=0)`. */
  function MaxSequence(ms: seq<Envelope>): (r: int)
    ensures r >= 0
    ensures forall j | 0 <= j < |ms| :: ms[j].sequence <= r
    ensures r == 0 || exists j :: 0 <= j < |ms| && ms[j].sequence == r
  {
    if ms == [] then 0
    else
      var rest := MaxSequence(ms[..|ms| - 1]);
      assert forall j | 0 <= j < |ms| - 1 :: ms[..|ms| - 1][j] == ms[j];
      if ms[|ms| - 1].sequence > rest then ms[|ms| - 1].sequence else rest
  }

  // ------------------------------------------------------------------ dump and restore

  datatype Payload = Payload(
    version: int, messages: seq<Envelope>, questions: seq<Question>, receipts: map<string, CallbackRecord>,
    nonces: map<string, NonceRecord>,
    epochs: map<Key, nat>, conversations: map<Key, string>)

  datatype Restored = Loaded(store: Store) | Corrupt(reason: string)

  function Dump(s: Store): Payload {
    Payload(2, s.messages, s.questions, s.receipts, s.nonces, s.epochs, s.conversations)
  }

  function Members(xs: seq<string>): set<string> { set x | x in xs }

  function Ids(ms: seq<Envelope>): set<string> { Members(seq(|ms|, i requires 0 <= i < |ms| => ms[i].id)) }

  function Refs(qs: seq<Question>): set<string> { Members(seq(|qs|, i requires 0 <= i < |qs| => qs[i].ref)) }

  /** One turn of the loop over the questions: a claimed or uncertain question names its answer, and a
      named answer exists and answers that question. */
  predicate Intact(ms: seq<Envelope>, q: Question) {
    && (q.state.Claimed? || q.state.Doubtful? ==> q.answerId.Some?)
    && (q.answerId.None?
        || (First(ms, ById(q.answerId.value)) < |ms|
            && ms[First(ms, ById(q.answerId.value))].questionRef == q.ref))
  }

  /** `_restore`, check by check. */
  function Restore(p: Payload): (r: Restored) {
    if p.version != 1 && p.version != 2 then Corrupt("unsupported Chat inbox version")
    else if |Ids(p.messages)| != |p.messages| then Corrupt("duplicate Chat inbox identity")
    else if |Refs(p.questions)| != |p.questions| then Corrupt("duplicate Chat question identity")
    else if exists q | q in p.questions :: !Intact(p.messages, q) then Corrupt("Question answer ownership is corrupt")
    else if exists m | m in p.messages :: m.kind.QuestionAnswer? && m.questionRef !in Refs(p.questions)
    then Corrupt("Question answer target is corrupt")
    else if exists k | k in p.receipts :: p.receipts[k].answerId !in Ids(p.messages)
    then Corrupt("Invalid callback receipt ownership")
    else if exists k | k in p.nonces :: !p.nonces[k].Intact() then Corrupt("Invalid callback nonce")
    else Loaded(Store(p.messages, p.questions, p.receipts, p.nonces, p.epochs, p.conversations))
  }

  ghost predicate DistinctIds(ms: seq<Envelope>) {
    forall i, j | 0 <= i < j < |ms| :: ms[i].id != ms[j].id
  }

  ghost predicate DistinctRefs(qs: seq<Question>) {
    forall i, j | 0 <= i < j < |qs| :: qs[i].ref != qs[j].ref
  }

  /** The answer a question names is stored and answers it; unresolved claims name one. */
  ghost predicate Owned(ms: seq<Envelope>, q: Question) {
    && (q.state.Claimed? || q.state.Doubtful? ==> q.answerId.Some?)
    && (q.answerId.Some? ==> exists i :: 0 <= i < |ms| && ms[i].id == q.answerId.value && ms[i].questionRef == q.ref)
  }

  ghost predicate Targeted(qs: seq<Question>, m: Envelope) {
    m.kind.QuestionAnswer? ==> exists k :: 0 <= k < |qs| && qs[k].ref == m.questionRef
  }

  ghost predicate Named(ms: seq<Envelope>, id: string) {
    exists i :: 0 <= i < |ms| && ms[i].id == id
  }

  ghost predicate NoncesIntact(nonces: map<string, NonceRecord>) {
    forall k | k in nonces :: nonces[k].Intact()
  }

  ghost predicate WellFormed(s: Store) {
    && NoncesIntact(s.nonces)
    && DistinctIds(s.messages)
    && DistinctRefs(s.questions)
    && (forall k {:trigger Owned(s.messages, s.questions[k])} | 0 <= k < |s.questions| ::
        Owned(s.messages, s.questions[k]))
    && (forall i {:trigger Targeted(s.questions, s.messages[i])} | 0 <= i < |s.messages| ::
        Targeted(s.questions, s.messages[i]))
    && (forall k {:trigger Named(s.messages, s.receipts[k].answerId)} | k in s.receipts ::
        Named(s.messages, s.receipts[k].answerId))
  }

  ghost predicate Distinct(xs: seq<string>) {
    forall i, j | 0 <= i < j < |xs| :: xs[i] != xs[j]
  }

  /** The source's duplicate test, `len({...}) != len(rows)`, finds exactly the repetitions. */
  lemma {:induction false} MemberCount(xs: seq<string>)
    ensures |Members(xs)| <= |xs|
    ensures |Members(xs)| == |xs| <==> Distinct(xs)
  {
    if xs != [] {
      var init, last := xs[..|xs| - 1], xs[|xs| - 1];
      MemberCount(init);
      assert xs == init + [last];
      assert Members(xs) == Members(init) + {last};
      if last in init {
        var i :| 0 <= i < |init| && init[i] == last;
        assert xs[i] == xs[|xs| - 1];
      } else {
        assert Distinct(xs) <==> Distinct(init) by {
          assert forall i | 0 <= i < |init| :: xs[i] == init[i] && init[i] in init;
        }
      }
    }
  }

  lemma IdCount(ms: seq<Envelope>)
    ensures |Ids(ms)| == |ms| <==> DistinctIds(ms)
    ensures forall x :: x in Ids(ms) <==> Named(ms, x)
  {
    var xs := seq(|ms|, i requires 0 <= i < |ms| => ms[i].id);
    MemberCount(xs);
    assert forall i | 0 <= i < |ms| :: xs[i] == ms[i].id;
    forall x ensures x in Ids(ms) <==> Named(ms, x) {
      if x in xs { var i :| 0 <= i < |xs| && xs[i] == x; assert ms[i].id == x; }
      if i :| 0 <= i < |ms| && ms[i].id == x { assert xs[i] == x; }
    }
  }

  lemma RefCount(qs: seq<Question>)
    ensures |Refs(qs)| == |qs| <==> DistinctRefs(qs)
    ensures forall x :: x in Refs(qs) <==> exists k :: 0 <= k < |qs| && qs[k].ref == x
  {
    var xs := seq(|qs|, i requires 0 <= i < |qs| => qs[i].ref);
    MemberCount(xs);
    assert forall i | 0 <= i < |qs| :: xs[i] == qs[i].ref;
    forall x ensures x in Refs(qs) <==> exists k :: 0 <= k < |qs| && qs[k].ref == x {
      if x in xs { var i :| 0 <= i < |xs| && xs[i] == x; assert qs[i].ref == x; }
      if i :| 0 <= i < |qs| && qs[i].ref == x { assert xs[i] == x; }
    }
  }

  lemma IntactMeansOwned(ms: seq<Envelope>, q: Question)
    requires DistinctIds(ms)
    ensures Intact(ms, q) <==> Owned(ms, q)
  {
    if q.answerId.Some? {
      var id := q.answerId.value;
      if i :| 0 <= i < |ms| && ms[i].id == id && ms[i].questionRef == q.ref {
        assert ById(id).Hit(ms[i]);
        assert ms[First(ms, ById(id))].id == ms[i].id;
      }
    }
  }

  /** The state a payload describes. */
  function Described(p: Payload): Store {
    Store(p.messages, p.questions, p.receipts, p.nonces, p.epochs, p.conversations)
  }

  /** The last four checks of `_restore`, on rows that do not repeat. */
  predicate References(p: Payload) {
    && (forall q | q in p.questions :: Intact(p.messages, q))
    && (forall m | m in p.messages :: m.kind.QuestionAnswer? ==> m.questionRef in Refs(p.questions))
    && (forall k | k in p.receipts :: p.receipts[k].answerId in Ids(p.messages))
    && (forall k | k in p.nonces :: p.nonces[k].Intact())
  }

  lemma ReferencesHold(p: Payload)
    requires DistinctIds(p.messages) && DistinctRefs(p.questions)
    ensures References(p) <==> WellFormed(Described(p))
  {
    var ms, qs := p.messages, p.questions;
    IdCount(ms);
    RefCount(qs);
    forall k | 0 <= k < |qs| ensures Intact(ms, qs[k]) <==> Owned(ms, qs[k]) { IntactMeansOwned(ms, qs[k]); }
    hide Intact, Owned;
    assert forall k | 0 <= k < |qs| :: qs[k] in qs;
    assert forall i | 0 <= i < |ms| :: ms[i] in ms;
    assert forall i | 0 <= i < |ms| :: Targeted(qs, ms[i]) <==>
           (ms[i].kind.QuestionAnswer? ==> ms[i].questionRef in Refs(qs));
    assert forall k | k in p.receipts :: Named(ms, p.receipts[k].answerId) <==> p.receipts[k].answerId in Ids(ms);
  }

  /** A payload is accepted, as the state it describes, exactly if its version is one or two and that state is well
      formed; and what is refused first is said. */
  lemma RestoresExactly(p: Payload)
    ensures var r, s := Restore(p), Described(p);
            && (r == Loaded(s) <==> (p.version == 1 || p.version == 2) && WellFormed(s))
            && (r.Loaded? <==> (p.version == 1 || p.version == 2) && WellFormed(s))
            && (r == Corrupt("unsupported Chat inbox version") <==> p.version != 1 && p.version != 2)
            && (r == Corrupt("duplicate Chat inbox identity") <==>
                  (p.version == 1 || p.version == 2) && !DistinctIds(s.messages))
            && (r == Corrupt("duplicate Chat question identity") <==>
                  (p.version == 1 || p.version == 2) && DistinctIds(s.messages) && !DistinctRefs(s.questions))
  {
    IdCount(p.messages);
    RefCount(p.questions);
    if DistinctIds(p.messages) && DistinctRefs(p.questions) {
      ReferencesHold(p);
      hide WellFormed, Intact;
      assert Restore(p).Loaded? <==> (p.version == 1 || p.version == 2) && References(p);
    }
  }

  /** A dumped state is read back as itself exactly when it is well formed; otherwise it is refused. */
  lemma RestoreAcceptsExactlyWellFormed(s: Store)
    ensures WellFormed(s) <==> Restore(Dump(s)) == Loaded(s)
    ensures WellFormed(s) <==> Restore(Dump(s)).Loaded?
  {
    hide Restore, WellFormed;
    RestoresExactly(Dump(s));
  }
}
