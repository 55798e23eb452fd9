/** A whole pass of `reconcile`, and what the pass at start-up leaves behind. */
module InboxRestart {
  import opened Options
  import opened ChatMessage
  import opened InboxStore
  import opened InboxEvolution
  import opened InboxOps

  /** What the surroundings answer about one entry: the evidence, or a failing read, the liveness probe,
      the clock and the outcomes of the saves. */
  datatype Look = Look(proof: Option<Proof>, probe: Liveness, at: int, o: Saving, o2: Saving)

  /** The process, `_restart_recovery`, and whether `reconcile` has raised. */
  datatype Pass = Pass(p: Proc, recovery: set<nat>, raised: bool)

  predicate Halfway(e: Envelope) { e.state.Dispatching? || e.state.Accepted? }

  /** The turn of the loop for the entry at `i`. */
  function Examine(s: Pass, i: nat, look: Look, restarting: bool, current: int): (r: Pass)
    requires i < |s.p.mem.messages|
    ensures !r.raised ==> |r.p.mem.messages| == |s.p.mem.messages|
  {
    var e := s.p.mem.messages[i];
    if e.kind.QuestionAnswer? then
      if restarting && Halfway(e) then
        s.(p := RecoverAnswer(s.p, i, look.at, look.o, look.o2),
           raised := !Changed(s.p, look.o)
                     || (e.started && FirstQuestion(s.p.mem.questions, e.questionRef) < |s.p.mem.questions|
                         && !look.o2.SaveOk?))
      else s
    else if !ReadsEvidence(e, i in s.recovery, current) then s
    else
      var q := MarkRead(s.p, i, i in s.recovery, current);
      if look.proof.None? && e.scheduled then s.(p := q)
      else
        var proof := if look.proof.None? then Started else look.proof.value;
        var liveness := LivenessOf(e, proof, i in s.recovery, look.probe);
        Pass(CommitProof(q, i, (e.state, e.updatedAt), proof, liveness, restarting, look.at, look.o),
             s.recovery - {i},
             Verdict(q.mem.messages[i], proof, liveness, restarting, look.at).Some? && !Changed(q, look.o))
  }

  /** The loop from entry `i` on. */
  function ExamineFrom(s: Pass, i: nat, looks: seq<Look>, restarting: bool, current: int): (r: Pass)
    requires !s.raised ==> i <= |looks| == |s.p.mem.messages|
    decreases |looks| - i
  {
    if s.raised || i == |looks| then s
    else ExamineFrom(Examine(s, i, looks[i], restarting, current), i + 1, looks, restarting, current)
  }

  /** `reconcile`, when no other step intervenes. */
  function Reconcile(p: Proc, recovery: set<nat>, looks: seq<Look>, restarting: bool, current: int, at: int,
                     o: Saving): Pass
    requires |looks| == |p.mem.messages|
  {
    var r := ExamineFrom(Pass(p, Recovery(recovery, p.mem.messages, restarting), false), 0, looks, restarting, current);
    if r.raised then r
    else r.(p := ExpirePass(r.p, at, o), raised := ExpireStore(r.p.mem, at) != r.p.mem && !o.SaveOk?)
  }

  lemma SameLiveness(e: Envelope, f: Envelope, proof: Proof, recovering: bool, probe: Liveness)
    requires e.scheduled == f.scheduled
    ensures LivenessOf(e, proof, recovering, probe) == LivenessOf(f, proof, recovering, probe)
  {
  }

  // ------------------------------------------------------------------ the pass at start-up

  predicate Pending(e: Envelope) { e.state.InFlight() && !(e.scheduled && e.state.Uncertain?) }

  /** What start-up owes an entry, given the evidence about it. */
  ghost predicate Settles(e: Envelope, look: Look, f: Envelope) {
    && SameIdentity(e, f)
    && f.started == e.started
    && (if e.kind.QuestionAnswer? then
          f.state == (if Halfway(e) then (if e.started then Uncertain else Queued) else e.state)
        else if !Pending(e) then f.state == e.state
        else match look.proof
          case None => f.state == (if e.scheduled then e.state else Uncertain)
          case Some(ProvenCompleted) => f.state.Completed?
          case Some(ProvenFailed) => f.state.Failed?
          case Some(ProvenCancelled) => f.state.Cancelled?
          case Some(Live) => f.state == e.state
          case Some(Absent) => f.state == if !e.started && (e.scheduled || e.state.Dispatching?) then Queued
            else Uncertain
          case Some(Started) => f.state.Uncertain?)
  }

  /** The entries before `i` are settled, the others untouched; scheduled entries not yet or not
      successfully read keep startup policy. */
  ghost predicate SettledUpTo(before: seq<Envelope>, s: Pass, i: nat, looks: seq<Look>) {
    && !s.raised && !s.p.closing
    && |looks| == |before| == |s.p.mem.messages| && i <= |before|
    && (forall j {:trigger s.p.mem.messages[j]} | 0 <= j < i :: Settles(before[j], looks[j], s.p.mem.messages[j]))
    && (forall j {:trigger s.p.mem.messages[j]} | i <= j < |before| :: s.p.mem.messages[j] == before[j])
    && (forall j {:trigger before[j]} | 0 <= j < |before| && before[j].kind.Message? && before[j].scheduled
        && Halfway(before[j])
          && (j >= i || looks[j].proof.None?) :: j in s.recovery)
  }

  /** A saved change touches one entry, and the inbox stays open. */
  lemma ExamineTouchesOne(s: Pass, i: nat, look: Look, current: int)
    requires i < |s.p.mem.messages| && !s.raised && !s.p.closing && look.o.SaveOk? && look.o2.SaveOk?
    ensures var r := Examine(s, i, look, true, current);
            && !r.raised && !r.p.closing
            && |r.p.mem.messages| == |s.p.mem.messages|
            && r.p.mem.messages == s.p.mem.messages[i := r.p.mem.messages[i]]
            && s.recovery - {i} <= r.recovery
            && (look.proof.None? && s.p.mem.messages[i].scheduled ==> r.recovery == s.recovery)
  {
    hide FirstQuestion;
  }

  lemma ExamineSettles(s: Pass, i: nat, look: Look, current: int)
    requires i < |s.p.mem.messages| && !s.raised && !s.p.closing && look.o.SaveOk? && look.o2.SaveOk?
    requires s.p.mem.messages[i].kind.Message? && s.p.mem.messages[i].scheduled && Halfway(s.p.mem.messages[i]) ==>
             i in s.recovery
    ensures Settles(s.p.mem.messages[i], look, Examine(s, i, look, true, current).p.mem.messages[i])
  {
    hide FirstQuestion, CommitProof, RecoverAnswer, Recovery, Settles;
    var e := s.p.mem.messages[i];
    if e.kind.QuestionAnswer? {
      UnmovedSettles(e, look);
      if Halfway(e) { AnswerSettles(s.p, i, look); }
    } else if Pending(e) && !(look.proof.None? && e.scheduled) {
      var q := MarkRead(s.p, i, i in s.recovery, current);
      var proof := if look.proof.None? then Started else look.proof.value;
      ProofSettles(e, q, i, look, proof, LivenessOf(e, proof, i in s.recovery, look.probe));
    } else {
      UnmovedSettles(e, look);
    }
  }

  lemma UnmovedSettles(e: Envelope, look: Look)
    ensures (if e.kind.QuestionAnswer? then !Halfway(e) else !Pending(e) || (look.proof.None? && e.scheduled)) ==>
            Settles(e, look, e)
  {
  }

  lemma AnswerSettles(p: Proc, i: nat, look: Look)
    requires i < |p.mem.messages| && !p.closing && look.o.SaveOk? && look.o2.SaveOk?
    requires p.mem.messages[i].kind.QuestionAnswer? && Halfway(p.mem.messages[i])
    ensures |RecoverAnswer(p, i, look.at, look.o, look.o2).mem.messages| == |p.mem.messages|
    ensures Settles(p.mem.messages[i], look, RecoverAnswer(p, i, look.at, look.o, look.o2).mem.messages[i])
  {
    hide FirstQuestion;
  }

  /** The verdict is the policy of start-up, whatever the direct or scheduled branch that reached it. */
  lemma ProofSettles(e: Envelope, q: Proc, i: nat, look: Look, proof: Proof, liveness: Liveness)
    requires i < |q.mem.messages| && !q.closing && look.o.SaveOk?
    requires e.kind.Message? && Pending(e)
    requires look.proof == Some(proof) || (look.proof.None? && !e.scheduled && proof.Started?)
    requires q.mem.messages[i] == e.(recoveryCheckedAt := q.mem.messages[i].recoveryCheckedAt)
    requires e.scheduled && (proof.Absent? || proof.Started?) ==> liveness.Dead?
    requires e.scheduled && proof.Live? ==> !liveness.Dead?
    ensures var r := CommitProof(q, i, (e.state, e.updatedAt), proof, liveness, true, look.at, look.o);
            |r.mem.messages| == |q.mem.messages| && Settles(e, look, r.mem.messages[i])
  {
    hide Settles, Verdict, Restore;
    VerdictSettles(e, q.mem.messages[i], look, proof, liveness);
  }

  lemma VerdictSettles(e: Envelope, m: Envelope, look: Look, proof: Proof, liveness: Liveness)
    requires e.kind.Message? && Pending(e) && m == e.(recoveryCheckedAt := m.recoveryCheckedAt)
    requires look.proof == Some(proof) || (look.proof.None? && !e.scheduled && proof.Started?)
    requires e.scheduled && (proof.Absent? || proof.Started?) ==> liveness.Dead?
    requires e.scheduled && proof.Live? ==> !liveness.Dead?
    ensures var v := Verdict(m, proof, liveness, true, look.at);
            Settles(e, look, if v.None? then m else Stamp(m, v.value.0, v.value.1, look.at))
  {
  }

  lemma {:induction false} StartupSettles(before: seq<Envelope>, s: Pass, i: nat, looks: seq<Look>, current: int)
    requires SettledUpTo(before, s, i, looks)
    requires forall look | look in looks :: look.o.SaveOk? && look.o2.SaveOk?
    ensures SettledUpTo(before, ExamineFrom(s, i, looks, true, current), |looks|, looks)
    decreases |looks| - i
  {
    hide Examine, Settles;
    if i < |looks| {
      assert looks[i] in looks && s.p.mem.messages[i] == before[i];
      ExamineTouchesOne(s, i, looks[i], current);
      ExamineSettles(s, i, looks[i], current);
      StartupSettles(before, Examine(s, i, looks[i], true, current), i + 1, looks, current);
    }
  }

  lemma ExpiryKeepsStates(s: Store, at: int)
    ensures |ExpireStore(s, at).messages| == |s.messages|
    ensures forall j | 0 <= j < |s.messages| ::
              ExpireStore(s, at).messages[j]
              == s.messages[j].(body := ExpireStore(s, at).messages[j].body,
                                expired := ExpireStore(s, at).messages[j].expired)
  {
  }

  /** What a pass at start-up over the entries `before` leaves: every envelope is queued, waiting, finished,
      uncertain or proven live, but for scheduled ones whose evidence could not be read; an envelope is sent
      back to the queue only if it was never submitted and its evidence is absent; and one whose read failed
      keeps its state and start-up policy for the next pass. */
  ghost predicate NothingInDoubt(before: seq<Envelope>, looks: seq<Look>, after: seq<Envelope>, recovery: set<nat>)
    requires |looks| == |before|
  {
    |after| == |before|
    && forall j | 0 <= j < |before| ::
         var e, f := before[j], after[j];
         && Settles(e, looks[j], f)
         && (f.state.Unsent() || f.state.Terminal() || f.state.Uncertain?
             || (f.state == e.state && e.kind.Message?
                 && (looks[j].proof == Some(Live) || (e.scheduled && looks[j].proof.None?))))
         && (e.kind.Message? && f.state.Unsent() && !e.state.Unsent() ==>
               !e.started && looks[j].proof == Some(Absent))
         && (e.kind.Message? && e.scheduled && Halfway(e) && looks[j].proof.None? ==>
               f.state == e.state && j in recovery)
  }

  lemma RestartLeavesNothingInDoubt(p: Proc, recovery: set<nat>, looks: seq<Look>, current: int, at: int)
    requires !p.closing && |looks| == |p.mem.messages|
    requires forall look | look in looks :: look.o.SaveOk? && look.o2.SaveOk?
    ensures var r := Reconcile(p, recovery, looks, true, current, at, SaveOk);
            !r.raised && !r.p.closing && NothingInDoubt(p.mem.messages, looks, r.p.mem.messages, r.recovery)
  {
    hide Examine, ExamineFrom, ExpireStore;
    var ms := p.mem.messages;
    var s := Pass(p, Recovery(recovery, ms, true), false);
    assert SettledUpTo(ms, s, 0, looks);
    StartupSettles(ms, s, 0, looks, current);
    var r := ExamineFrom(s, 0, looks, true, current);
    ExpiryKeepsStates(r.p.mem, at);
    forall j | 0 <= j < |ms|
      ensures Settles(ms[j], looks[j], r.p.mem.messages[j])
              && Settles(ms[j], looks[j], ExpireStore(r.p.mem, at).messages[j])
    {}
  }
}
