/** What `reconcile` makes of an entry, for each kind of evidence, in ordinary passes as at start-up: over a whole
    pass, and over one read of a run, however long it took. */
module InboxVerdicts {
  import opened Options
  import opened ChatMessage
  import opened InboxStore
  import opened InboxEvolution
  import opened InboxOps
  import opened InboxProtocol
  import opened InboxRuns
  import opened InboxRestart
  import InboxMoves
  import InboxSafety
  import InboxSteps

  /** A message in flight whose evidence this pass reads.  A scheduled one is left alone for ten minutes after its
      last change and for a minute after the last look, unless it is recovered from an earlier process. */
  predicate Examined(e: Envelope, recovering: bool, current: int) {
    && e.kind.Message? && e.state.InFlight() && !e.InDoubt()
    && (e.scheduled && !recovering ==>
          && current >= e.updatedAt + 600
          && (e.recoveryCheckedAt.Some? ==> current >= e.recoveryCheckedAt.value + 60))
  }

  /** Does the evidence move the entry?  What is live or cannot be known moves nothing; nor, outside start-up, does
      missing proof of a direct message that has not been accepted for more than a minute, or of a scheduled one
      that the probe does not take for dead. */
  predicate Moved(e: Envelope, proof: Option<Proof>, probe: Liveness, recovering: bool, restarting: bool, at: int) {
    match proof
    case Some(ProvenCompleted) => true
    case Some(ProvenFailed) => true
    case Some(ProvenCancelled) => true
    case Some(Live) => false
    case _ =>
      if e.scheduled then proof.Some? && (recovering || probe.Dead?)
      else restarting || (e.state.Accepted? && at > e.updatedAt + 60)
  }

  /** What an entry has become, after evidence about it was read. */
  ghost predicate Judged(e: Envelope, proof: Option<Proof>, probe: Liveness, recovering: bool, restarting: bool,
                         at: int, f: Envelope)
  {
    if !Moved(e, proof, probe, recovering, restarting, at) then f == e
    else
      && f == e.(state := f.state, updatedAt := at, waitingReason := NoNote, error := f.error, adopted := f.adopted)
      && (f.adopted <==> e.adopted && !f.state.Queued?)
      && (f.state.Completed? <==> proof == Some(ProvenCompleted))
      && (f.state.Failed? <==> proof == Some(ProvenFailed))
      && (f.state.Cancelled? <==> proof == Some(ProvenCancelled))
      && (f.state.Queued? <==> proof == Some(Absent) && !e.started && (e.scheduled || e.state.Dispatching?))
      && (f.state.Terminal() || f.state.Queued? || f.state.Uncertain?)
      && f.error == (if !f.state.Uncertain? then NoNote
                     else if e.scheduled then StoppedReporting
                     else if restarting then NeedsReconciliation else OwnershipLost)
  }

  lemma VerdictJudges(e: Envelope, proof: Option<Proof>, probe: Liveness, recovering: bool, restarting: bool, at: int)
    requires e.kind.Message? && e.state.InFlight() && !e.InDoubt()
    requires proof.None? ==> !e.scheduled
    ensures var p := if proof.None? then Started else proof.value;
            var v := Verdict(e, p, LivenessOf(e, p, recovering, probe), restarting, at);
            Judged(e, proof, probe, recovering, restarting, at,
                   if v.None? then e else Stamp(e, v.value.0, v.value.1, at))
  {
  }

  /** The locked part of `reconcile`, when the change can be saved. */
  lemma CommitJudges(p: Proc, i: nat, seen: (State, int), proof: Option<Proof>, probe: Liveness, recovering: bool,
                     restarting: bool, at: int)
    requires i < |p.mem.messages| && !p.closing
    requires p.mem.messages[i].kind.Message? && seen.0.InFlight()
    requires !(p.mem.messages[i].scheduled && seen.0.Uncertain?)
    requires proof.None? ==> !p.mem.messages[i].scheduled
    ensures var e, b := p.mem.messages[i], if proof.None? then Started else proof.value;
            var q := CommitProof(p, i, seen, b, LivenessOf(e, b, recovering, probe), restarting, at, SaveOk);
            && |q.mem.messages| == |p.mem.messages| && !q.closing
            && q.mem.messages == p.mem.messages[i := q.mem.messages[i]]
            && (if (e.state, e.updatedAt) != seen then q == p
                else Judged(e, proof, probe, recovering, restarting, at, q.mem.messages[i]))
  {
    hide Verdict, Restore, Judged, LivenessOf;
    var e := p.mem.messages[i];
    if (e.state, e.updatedAt) == seen { VerdictJudges(e, proof, probe, recovering, restarting, at); }
  }

  // ------------------------------------------------------------------ an ordinary pass

  /** The entry as it is when its evidence is read: the look at a scheduled one is noted. */
  function Noted(e: Envelope, recovering: bool, current: int): Envelope {
    if e.scheduled && !recovering then e.(recoveryCheckedAt := Some(current)) else e
  }

  /** What an ordinary pass owes an entry. */
  ghost predicate PassedOver(e: Envelope, look: Look, recovering: bool, current: int, f: Envelope) {
    if !Examined(e, recovering, current) then f == e
    else Judged(Noted(e, recovering, current), look.proof, look.probe, recovering, false, look.at, f)
  }

  /** Does the pass take the entry from those that are recovered from an earlier process? */
  predicate Recovered(e: Envelope, look: Look, recovering: bool, current: int) {
    Examined(e, recovering, current) && !(look.proof.None? && e.scheduled)
  }

  lemma ExaminePasses(s: Pass, i: nat, look: Look, current: int)
    requires i < |s.p.mem.messages| && !s.raised && !s.p.closing && look.o.SaveOk?
    ensures var e, r := s.p.mem.messages[i], Examine(s, i, look, false, current);
            && !r.raised && !r.p.closing && |r.p.mem.messages| == |s.p.mem.messages|
            && r.p.mem.messages == s.p.mem.messages[i := r.p.mem.messages[i]]
            && PassedOver(e, look, i in s.recovery, current, r.p.mem.messages[i])
            && r.recovery == if Recovered(e, look, i in s.recovery, current) then s.recovery - {i} else s.recovery
  {
    hide CommitProof, LivenessOf, Verdict, Restore, Judged;
    var e := s.p.mem.messages[i];
    if Examined(e, i in s.recovery, current) {
      var q := MarkRead(s.p, i, i in s.recovery, current);
      UnmovedJudged(Noted(e, i in s.recovery, current), look);
      if Recovered(e, look, i in s.recovery, current) {
        CommitJudges(q, i, (e.state, e.updatedAt), look.proof, look.probe, i in s.recovery, false, look.at);
        SameLiveness(e, q.mem.messages[i], if look.proof.None? then Started else look.proof.value,
                     i in s.recovery, look.probe);
      }
    }
  }

  lemma UnmovedJudged(e: Envelope, look: Look)
    ensures look.proof.None? && e.scheduled ==>
              forall b: bool :: Judged(e, look.proof, look.probe, b, false, look.at, e)
  {
  }

  /** The entries before `i` are passed over, the others untouched. */
  ghost predicate PassedUpTo(before: seq<Envelope>, recovery: set<nat>, s: Pass, i: nat, looks: seq<Look>,
                             current: int)
  {
    && !s.raised && !s.p.closing && |looks| == |before| == |s.p.mem.messages| && i <= |before|
    && (forall j {:trigger s.p.mem.messages[j]} | 0 <= j < i ::
          PassedOver(before[j], looks[j], j in recovery, current, s.p.mem.messages[j]))
    && (forall j {:trigger s.p.mem.messages[j]} | i <= j < |before| :: s.p.mem.messages[j] == before[j])
    && (forall j: nat {:trigger j in s.recovery} ::
          j in s.recovery <==> j in recovery && !(j < i && Recovered(before[j], looks[j], true, current)))
  }

  lemma {:induction false} OrdinaryPass(before: seq<Envelope>, recovery: set<nat>, s: Pass, i: nat, looks: seq<Look>,
                                        current: int)
    requires PassedUpTo(before, recovery, s, i, looks, current)
    requires forall look | look in looks :: look.o.SaveOk?
    ensures PassedUpTo(before, recovery, ExamineFrom(s, i, looks, false, current), |looks|, looks, current)
    decreases |looks| - i
  {
    hide Examine, PassedOver, Recovered;
    if i < |looks| {
      assert looks[i] in looks && s.p.mem.messages[i] == before[i];
      ExaminePasses(s, i, looks[i], current);
      OrdinaryPass(before, recovery, Examine(s, i, looks[i], false, current), i + 1, looks, current);
    }
  }

  /** Recovered from an earlier process are the scheduled messages that start-up found on their way, for as long as
      they are. */
  lemma RecoveredSince(recovery: set<nat>, ms: seq<Envelope>, restarting: bool, j: nat)
    ensures j in Recovery(recovery, ms, restarting) <==>
              && (restarting || j in recovery)
              && j < |ms| && ms[j].scheduled && (ms[j].state.Dispatching? || ms[j].state.Accepted?)
  {
  }

  /** An ordinary pass, to its end: every entry is what its evidence makes of it, and no other has changed, but
      that old contents have then expired; and of the entries that are recovered from an earlier process exactly
      those remain that are still in flight and whose evidence was not read. */
  lemma ReconcilePasses(p: Proc, recovery: set<nat>, looks: seq<Look>, current: int, at: int)
    requires !p.closing && |looks| == |p.mem.messages| && forall look | look in looks :: look.o.SaveOk?
    ensures var r := Reconcile(p, recovery, looks, false, current, at, SaveOk);
            var ms, left := p.mem.messages, Recovery(recovery, p.mem.messages, false);
            && !r.raised && !r.p.closing && |r.p.mem.messages| == |ms|
            && (forall j | 0 <= j < |ms| :: exists f ::
                  PassedOver(ms[j], looks[j], j in left, current, f) && r.p.mem.messages[j] == Expire(f, at))
            && (forall j: nat :: j in r.recovery <==>
                  j in left && !(j < |ms| && Recovered(ms[j], looks[j], true, current)))
  {
    hide Examine, ExamineFrom, PassedOver, Expire, Recovered, ScheduledInFlight;
    var ms, left := p.mem.messages, Recovery(recovery, p.mem.messages, false);
    var s := Pass(p, left, false);
    assert PassedUpTo(ms, left, s, 0, looks, current);
    OrdinaryPass(ms, left, s, 0, looks, current);
    var m := ExamineFrom(s, 0, looks, false, current);
    var r := Reconcile(p, recovery, looks, false, current, at, SaveOk);
    forall j | 0 <= j < |ms|
      ensures exists f ::
                PassedOver(ms[j], looks[j], j in left, current, f) && r.p.mem.messages[j] == Expire(f, at)
    {
      assert PassedOver(ms[j], looks[j], j in left, current, m.p.mem.messages[j]);
      if ExpireStore(m.p.mem, at) == m.p.mem { assert ExpireStore(m.p.mem, at).messages[j] == m.p.mem.messages[j]; }
    }
  }

  // ------------------------------------------------------------------ one read of a run

  /** The end of a read judges its entry by what was seen when it began, whatever the pass, and touches no other. */
  lemma ReadJudges(w: World, r: nat, proof: Proof, probe: Liveness, restarting: bool, o: Saving, now: int)
    requires InboxSafety.Safe(w) && Typed(w) && !w.p.closing && o.SaveOk?
    requires Enabled(w, ReadEnds(r, proof, probe, restarting, o), now)
    ensures var read, v := w.looks[r], ReadNext(w, ReadEnds(r, proof, probe, restarting, o), now);
            && read.i < |w.p.mem.messages| == |v.p.mem.messages|
            && v.p.mem.messages == w.p.mem.messages[read.i := v.p.mem.messages[read.i]]
            && var e, f := w.p.mem.messages[read.i], v.p.mem.messages[read.i];
               if (e.state, e.updatedAt) != read.seen then f == e
               else Judged(e, Some(proof), probe, read.recovering, restarting, now, f)
  {
    hide InboxSafety.Safe, CommitProof, Judged, LivenessOf;
    LookIsOf(w, r);
    CommitJudges(w.p, w.looks[r].i, w.looks[r].seen, Some(proof), probe, w.looks[r].recovering, restarting, now);
  }

  lemma LookIsOf(w: World, r: nat)
    requires InboxSafety.Safe(w) && r in w.looks
    ensures var read := w.looks[r];
            && read.i < |w.p.mem.messages| && w.p.mem.messages[read.i].kind.Message?
            && read.seen.0.InFlight() && !(w.p.mem.messages[read.i].scheduled && read.seen.0.Uncertain?)
  {
    InboxSteps.MemAll(w);
    assert InboxSafety.LookOk(w.p.mem, w.clock, w.looks[r]);
  }

  /** Is read `r` pending from just after world `i` to world `j`? */
  ghost predicate PendingFrom(ws: seq<World>, i: nat, j: nat, r: nat)
    requires i < j < |ws|
  {
    r in ws[i + 1].looks && forall k | i < k <= j :: r in ws[k].looks && ws[k].looks[r] == ws[i + 1].looks[r]
  }

  /** In any run, between the begin and the end of a read, whatever happens meanwhile: if the entry has moved, the
      evidence does nothing; otherwise it makes of it exactly what `Judged` says. */
  lemma ReadPairJudges(ws: seq<World>, i: nat, j: nat, r: nat, n: nat, current: int, since: int, proof: Proof,
                       probe: Liveness, restarting: bool, o: Saving, now: int)
    requires Run(ws) && i < j < |ws| - 1 && PendingFrom(ws, i, j, r)
    requires Goes(ws[i], ws[i + 1], ReadBegins(r, n, current), since)
    requires Goes(ws[j], ws[j + 1], ReadEnds(r, proof, probe, restarting, o), now)
    requires !ws[j].p.closing && o.SaveOk?
    ensures n < |ws[i].p.mem.messages| && n < |ws[j].p.mem.messages| == |ws[j + 1].p.mem.messages|
    ensures Examined(ws[i].p.mem.messages[n], n in ws[i].recovery, current)
    ensures var was, e, f := ws[i].p.mem.messages[n], ws[j].p.mem.messages[n], ws[j + 1].p.mem.messages[n];
            && ws[j + 1].p.mem.messages == ws[j].p.mem.messages[n := f]
            && (if e.state != was.state || e.updatedAt != was.updatedAt then f == e
                else Judged(e, Some(proof), probe, n in ws[i].recovery, restarting, now, f))
  {
    hide Run, InboxSafety.Safe, Judged, MarkRead, CommitProof, LivenessOf, Typed, Next;
    RunIsSafe(ws, j);
    InboxSteps.NextIs(ws[i], ReadBegins(r, n, current), since);
    InboxSteps.NextIs(ws[j], ReadEnds(r, proof, probe, restarting, o), now);
    ReadJudges(ws[j], r, proof, probe, restarting, o, now);
    assert r in ws[i + 1].looks && ws[j].looks[r] == ws[i + 1].looks[r];
  }
}
