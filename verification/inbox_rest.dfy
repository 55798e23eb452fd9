/** Messages at rest, finished or scheduled and in doubt: when one leaves its rest again, and when it cannot. */
module InboxRest {
  import opened Options
  import opened ChatMessage
  import opened InboxStore
  import opened InboxEvolution
  import opened InboxOps
  import opened InboxMoves
  import opened InboxProtocol
  import opened InboxSafety
  import opened InboxSteps
  import opened InboxRuns

  /** A scheduled message whose delivery is uncertain. */
  predicate Doubted(s: Store, i: nat) { Rest(s, i) == Some(Uncertain) }

  lemma DoubtedMeans(s: Store, i: nat)
    ensures Doubted(s, i) <==> i < |s.messages| && s.messages[i].InDoubt()
    ensures Rest(s, i).Some? && !Doubted(s, i) <==>
              i < |s.messages| && s.messages[i].kind.Message? && s.messages[i].state.Terminal()
  {
  }

  /** The step is the end of a `submit` for entry `i` that raised before anything was marked started. */
  predicate EndsUnstarted(w: World, s: Step, i: nat) {
    && s.SubmitFails? && s.tab in w.pumps && w.pumps[s.tab].i == i
    && i < |w.p.mem.messages| && !w.p.mem.messages[i].started && !w.p.closing
  }

  /** The step fails entry `i` in the middle of its preparation. */
  predicate FailsPrepared(w: World, s: Step, i: nat) {
    && s.PrepareFails? && s.tab in w.pumps && w.pumps[s.tab].i == i
    && i < |w.p.mem.messages| && !w.p.mem.messages[i].state.Failed? && !w.p.closing
  }

  /** The step takes entry `i` from its rest, if its save succeeds. */
  predicate Stirs(w: World, s: Step, i: nat) {
    if Doubted(w.p.mem, i) then EndsUnstarted(w, s, i) else FailsPrepared(w, s, i)
  }

  predicate StirsSaved(w: World, s: Step, i: nat) { Stirs(w, s, i) && s.o.SaveOk? }

  lemma SubmitFailsLands(w: World, tab: string, f: Failure, o: Saving, now: int)
    requires Typed(w) && Enabled(w, SubmitFails(tab, f, o), now)
    ensures tab in w.pumps && w.pumps[tab].i < |w.p.mem.messages|
    ensures PumpNext(w, SubmitFails(tab, f, o), now).p == SubmitFailed(w.p, w.pumps[tab].i, f, now, o)
  {
    hide SubmitFailed;
  }

  lemma PrepareFailsLands(w: World, tab: string, text: string, o: Saving, now: int)
    requires Typed(w) && Enabled(w, PrepareFails(tab, text, o), now)
    ensures tab in w.pumps && w.pumps[tab].Prepares? && w.pumps[tab].i < |w.p.mem.messages|
    ensures var v := PumpNext(w, PrepareFails(tab, text, o), now);
            v.p == Change(w.p, w.pumps[tab].i, Failed, Text(text), now, o) && v.pumps == w.pumps && v.clock == now
  {
    hide Change;
  }

  /** What the handler of a failing `submit` makes of a message in doubt. */
  lemma HandlerOnDoubt(p: Proc, i: nat, f: Failure, now: int, o: Saving)
    requires Coherent(p) && Doubted(p.mem, i)
    ensures var e, q := p.mem.messages[i], SubmitFailed(p, i, f, now, o);
            && (!Doubted(q.mem, i) <==> !e.started && !p.closing && o.SaveOk?)
            && (!Doubted(q.mem, i) ==>
                  && i < |q.mem.messages| && (q.mem.messages[i].state.Waiting? || q.mem.messages[i].state.Failed?)
                  && (f.RuntimeFailure? ==> q.mem.messages[i].state == if f.inFlight then Waiting else Failed))
            && (Doubted(q.mem, i) ==>
                  || Doubted(q.disk, i) || EntryAt(q.disk, i) == EntryAt(p.disk, i)
                  || (!e.started && !p.closing && o.FailsAfterReplace?))
            && (Rest(q.mem, i).Some? && !Doubted(q.mem, i) ==> Rest(q.disk, i) == Rest(q.mem, i))
  {
    hide Inv, Evolves, Restore;
    CommittedInv(p);
    AheadRest(p.committed, p.mem);
    var live := p.mem.messages[i];
    var (attempts, state, reason) := AfterFailure(live, f);
    var m := Replace(p.mem, i, live.(attempts := attempts));
    SaveOutcome(p.(mem := Replace(m, i, Stamp(m.messages[i], state, reason, now))), o);
  }

  /** A finished message is nothing to the handler; one that is not at rest is afterwards at rest in the file
      as well, if it is in memory. */
  lemma HandlerElsewhere(p: Proc, i: nat, f: Failure, now: int, o: Saving)
    requires Coherent(p) && i < |p.mem.messages| && p.mem.messages[i].kind.Message? && !Doubted(p.mem, i)
    ensures var q := SubmitFailed(p, i, f, now, o);
            if Rest(p.mem, i).Some? then q == p else FileAgrees(q, i)
  {
    hide Inv, Evolves, Restore;
    CommittedInv(p);
    AheadRest(p.committed, p.mem);
    var live := p.mem.messages[i];
    var (attempts, state, reason) := AfterFailure(live, f);
    var m := Replace(p.mem, i, live.(attempts := attempts));
    SaveOutcome(p.(mem := Replace(m, i, Stamp(m.messages[i], state, reason, now))), o);
  }

  /** What a preparation that fails its entry makes of it. */
  lemma PreparedFails(p: Proc, i: nat, text: string, now: int, o: Saving)
    requires Coherent(p) && i < |p.mem.messages| && p.mem.messages[i].kind.Message?
    ensures var q := Change(p, i, Failed, Text(text), now, o);
            && (!p.closing && o.SaveOk? ==> Rest(q.mem, i) == Rest(q.disk, i) == Some(Failed))
            && (p.closing || !o.SaveOk? ==> Rest(q.mem, i) == Rest(p.mem, i))
            && (p.closing || o.FailsBeforeReplace? ==> q.disk == p.disk)
            && (!p.closing && o.FailsAfterReplace? ==> Rest(q.disk, i) == Some(Failed))
  {
    hide Inv, Evolves, Restore;
    CommittedInv(p);
    AheadRest(p.committed, p.mem);
    SaveOutcome(p.(mem := Replace(p.mem, i, Stamp(p.mem.messages[i], Failed, Text(text), now))), o);
  }

  lemma SubmittedIsMessage(w: World, tab: string)
    requires Safe(w) && tab in w.pumps
    ensures w.pumps[tab].i < |w.p.mem.messages| && w.p.mem.messages[w.pumps[tab].i].kind.Message?
    ensures w.pumps[tab].Prepares? ==>
              var e := w.p.mem.messages[w.pumps[tab].i]; e.scheduled && !e.started && !e.state.InFlight()
  {
    if w.pumps[tab].Prepares? { MemPrepared(w, tab); } else { Submitting(w, tab); }
  }

  lemma StirredExactly(w: World, s: Step, now: int, i: nat)
    requires Safe(w) && Typed(w) && Enabled(w, s, now) && Rest(w.p.mem, i).Some? && Stirred(w, s) == Some(i)
    ensures var r := Rest(Next(w, s, now).p.mem, i);
            && (r != Rest(w.p.mem, i) <==> StirsSaved(w, s, i))
            && (FailsPrepared(w, s, i) && StirsSaved(w, s, i) ==> r == Some(Failed))
  {
    hide Safe, CallNext, PumpNext, AnswerNext, ReadNext, Enabled, Rest, Typed;
    SafeCoherent(w);
    DoubtedMeans(w.p.mem, i);
    SubmittedIsMessage(w, s.tab);
    if s.SubmitFails? {
      SubmitFailsLands(w, s.tab, s.f, s.o, now);
      if Doubted(w.p.mem, i) {
        HandlerOnDoubt(w.p, i, s.f, now, s.o);
      } else {
        HandlerElsewhere(w.p, i, s.f, now, s.o);
      }
    } else {
      PrepareFailsLands(w, s.tab, s.text, s.o, now);
      PreparedFails(w.p, i, s.text, now, s.o);
      RestMeans(w.p.mem, i);
    }
  }

  /** Of all steps but a crash exactly two take a message from its rest in memory, if what they do is saved:
      the end of a `submit` that raised takes back a message in doubt that was not started, and a preparation
      that fails its entry makes a finished one failed.  A crash does so exactly when the file says otherwise
      than the memory already. */
  lemma LeavesRestExactly(w: World, s: Step, now: int, i: nat)
    requires Safe(w) && Typed(w) && Enabled(w, s, now) && Rest(w.p.mem, i).Some?
    ensures var r := Rest(Next(w, s, now).p.mem, i);
            && (!s.Crash? ==> (r != Rest(w.p.mem, i) <==> StirsSaved(w, s, i)))
            && (FailsPrepared(w, s, i) && StirsSaved(w, s, i) ==> r == Some(Failed))
            && (s.Crash? ==> r == Rest(w.p.disk, i))
  {
    hide Safe, Next, Enabled, Evolves, Remembers, Rest, Typed, TakesUp;
    if s.Crash? {
      CrashIsSafe(w, now);
    } else if s.StartEnds? {
      StartEndsIsSafe(w, now);
    } else if Stirred(w, s) == Some(i) {
      StirredExactly(w, s, now, i);
    } else {
      StepIsSafe(w, s, now);
    }
  }

  /** In particular of a scheduled message in doubt: the end of a `submit` for it that raised, unstarted, in an
      open inbox, takes it back if the change is saved, a crash if the file says so, and nothing else does. */
  lemma ReturnsFromDoubtExactly(w: World, s: Step, now: int, i: nat)
    requires Safe(w) && Typed(w) && Enabled(w, s, now) && Doubted(w.p.mem, i)
    ensures !s.Crash? ==> (!Doubted(Next(w, s, now).p.mem, i) <==> EndsUnstarted(w, s, i) && StirsSaved(w, s, i))
    ensures s.Crash? ==> (!Doubted(Next(w, s, now).p.mem, i) <==> !Doubted(w.p.disk, i))
  {
    hide Safe, Next, Enabled, Rest, Typed;
    LeavesRestExactly(w, s, now, i);
  }

  /** A message at rest that was submitted, that is direct or that has failed is so for good, in memory and in
      the file, through all restarts; of the others those in doubt may come back, and finished ones be failed. */
  lemma RestIsFinal(ws: seq<World>, i: nat, j: nat, n: nat)
    requires Run(ws) && i <= j < |ws| && Rest(ws[i].p.committed, n).Some?
    requires var e := ws[i].p.committed.messages[n]; e.started || !e.scheduled || e.state.Failed?
    ensures var c := Rest(ws[i].p.committed, n);
            Rest(ws[j].p.mem, n) == c && Rest(ws[j].p.committed, n) == c && Rest(ws[j].p.disk, n) == c
  {
    hide Run, Inv;
    EverythingFollows(ws, i, j);
    assert Follows(ws[i].p.committed.messages[n], ws[j].p.mem.messages[n]);
    assert Follows(ws[i].p.committed.messages[n], ws[j].p.committed.messages[n]);
    assert Follows(ws[i].p.committed.messages[n], ws[j].p.disk.messages[n]);
  }

  // ------------------------------------------------------------------ where the file comes to differ

  /** The step tried to take entry `i` from its rest, and failed after the file was replaced. */
  ghost predicate Attempted(w: World, v: World, i: nat) {
    exists s, now :: Goes(w, v, s, now) && Stirs(w, s, i) && s.o.FailsAfterReplace?
  }

  /** The file says otherwise than the memory of a message at rest. */
  predicate Denied(p: Proc, i: nat) { Rest(p.mem, i).Some? && Rest(p.disk, i) != Rest(p.mem, i) }

  lemma FileComesToDiffer(w: World, v: World, s: Step, now: int, i: nat)
    requires Safe(w) && Goes(w, v, s, now) && Denied(v.p, i)
    ensures Attempted(w, v, i) || Denied(w.p, i)
  {
    hide Safe, Next, Enabled, Evolves, Remembers, Rest, Typed, TakesUp;
    StepIsSafe(w, s, now);
    if s.Crash? {
      CrashIsSafe(w, now);
    } else if s.StartEnds? {
      StartEndsIsSafe(w, now);
    } else if Stirred(w, s) == Some(i) {
      StirredDiffers(w, v, s, now, i);
    } else if Rest(w.p.mem, i) == Rest(v.p.mem, i) && EntryAt(v.p.disk, i) == EntryAt(w.p.disk, i) {
      SameRest(w.p.disk, v.p.disk, i);
    }
  }

  lemma StirredDiffers(w: World, v: World, s: Step, now: int, i: nat)
    requires Safe(w) && Goes(w, v, s, now) && Denied(v.p, i) && Stirred(w, s) == Some(i)
    ensures Attempted(w, v, i) || Denied(w.p, i)
  {
    hide Safe, CallNext, PumpNext, AnswerNext, ReadNext, Enabled, Rest, Typed;
    SafeCoherent(w);
    SubmittedIsMessage(w, s.tab);
    DoubtedMeans(w.p.mem, i);
    if s.SubmitFails? {
      SubmitFailsLands(w, s.tab, s.f, s.o, now);
      if Doubted(w.p.mem, i) {
        HandlerOnDoubt(w.p, i, s.f, now, s.o);
        if EntryAt(v.p.disk, i) == EntryAt(w.p.disk, i) { SameRest(w.p.disk, v.p.disk, i); }
      } else {
        HandlerElsewhere(w.p, i, s.f, now, s.o);
      }
    } else {
      PrepareFailsLands(w, s.tab, s.text, s.o, now);
      PreparedFails(w.p, i, s.text, now, s.o);
      RestMeans(w.p.mem, i);
    }
  }

  lemma RestMeans(s: Store, i: nat)
    requires i < |s.messages| && s.messages[i].kind.Message?
    ensures Rest(s, i).Some? ==> Rest(s, i).value == s.messages[i].state
  {
  }

  /** If the file denies the rest that a message has in memory, so that a crash would end it, some earlier step
      of the run attempted to end it and failed after replacing the file. */
  lemma {:induction false} FileDeniesRest(ws: seq<World>, k: nat, i: nat)
    requires Run(ws) && k < |ws| && Denied(ws[k].p, i)
    ensures exists j :: 0 < j <= k && Attempted(ws[j - 1], ws[j], i)
  {
    hide Attempted, Next, Enabled, Safe, Typed, Rest;
    if k > 0 {
      RunIsSafe(ws, k - 1);
      assert Linked(ws, k);
      var s, now :| Goes(ws[k - 1], ws[k], s, now);
      FileComesToDiffer(ws[k - 1], ws[k], s, now, i);
      if !Attempted(ws[k - 1], ws[k], i) {
        FileDeniesRest(ws, k - 1, i);
      }
    }
  }

  // ------------------------------------------------------------------ a message that comes back

  /** A dispatched scheduled message whose `submit` has not called back yet, in an open inbox. */
  ghost predicate Awaited(w: World, tab: string) {
    && !w.p.closing && tab in w.pumps && w.pumps[tab].Submits? && w.pumps[tab].i < |w.p.mem.messages|
    && var e := w.p.mem.messages[w.pumps[tab].i];
       e.kind.Message? && e.scheduled && e.state.Dispatching? && !e.started
  }

  /** For instance: the evidence of a pass puts such a message in doubt, at start-up or ten minutes later if the
      probe takes it for dead; then its `submit` raises because a turn is in flight already, and the message
      waits, and blocks its tab, again. */
  lemma DoubtAndReturn(ws: seq<World>, tab: string, r: nat, restarting: bool, current: int, text: string, now: int)
      returns (vs: seq<World>)
    requires Run(ws) && now > ws[|ws| - 1].clock && Awaited(ws[|ws| - 1], tab) && r !in ws[|ws| - 1].looks
    requires restarting || !Throttled(ws[|ws| - 1].p.mem.messages[ws[|ws| - 1].pumps[tab].i], false, current)
    ensures Run(vs) && |vs| == |ws| + 4 && vs[..|ws|] == ws
    ensures var i, n := ws[|ws| - 1].pumps[tab].i, |ws|;
            && Goes(vs[n - 1], vs[n], ReconcileBegins(restarting), now)
            && Goes(vs[n], vs[n + 1], ReadBegins(r, i, current), now + 1)
            && Goes(vs[n + 1], vs[n + 2], ReadEnds(r, Proof.Started, Dead, restarting, SaveOk), now + 2)
            && Goes(vs[n + 2], vs[n + 3], SubmitFails(tab, RuntimeFailure(true, text), SaveOk), now + 3)
            && Doubted(vs[n + 2].p.mem, i)
            && i < |vs[n + 3].p.mem.messages| && vs[n + 3].p.mem.messages[i].state.Waiting?
            && vs[n + 3].p.mem.messages[i].Blocks()
  {
    hide Starts, Linked, Goes, Next, SubmitFailed, CommitProof, Typed;
    var us := DoubtComes(ws, tab, r, restarting, current, now);
    vs := GoOn(us, SubmitFails(tab, RuntimeFailure(true, text), SaveOk), now + 3);
    ComesBack(Last(us).p, Last(ws).pumps[tab].i, text, now + 3);
    assert vs[..|ws|] == us[..|ws|];
  }

  lemma DoubtComes(ws: seq<World>, tab: string, r: nat, restarting: bool, current: int, now: int)
      returns (vs: seq<World>)
    requires Run(ws) && now > Last(ws).clock && Awaited(Last(ws), tab) && r !in Last(ws).looks
    requires restarting || !Throttled(Last(ws).p.mem.messages[Last(ws).pumps[tab].i], false, current)
    ensures Run(vs) && |vs| == |ws| + 3 && vs[..|ws|] == ws
    ensures var i, n, v := Last(ws).pumps[tab].i, |ws|, Last(vs);
            && Goes(vs[n - 1], vs[n], ReconcileBegins(restarting), now)
            && Goes(vs[n], vs[n + 1], ReadBegins(r, i, current), now + 1)
            && Goes(vs[n + 1], v, ReadEnds(r, Proof.Started, Dead, restarting, SaveOk), now + 2)
            && Doubted(v.p.mem, i) && !v.p.mem.messages[i].started && !v.p.closing
            && v.pumps == Last(ws).pumps && v.clock == now + 2
  {
    hide Starts, Linked, Goes, Next, MarkRead, CommitProof, LivenessOf, Throttled, ReadsEvidence, Typed, Recovery;
    var i := Last(ws).pumps[tab].i;
    var us := GoOn(ws, ReconcileBegins(restarting), now);
    Recovers(Last(ws).p, Last(ws).recovery, restarting, i);
    MayRead(Last(us), i, restarting, current);
    var us2 := GoOn(us, ReadBegins(r, i, current), now + 1);
    MarkKeeps(Last(us).p, i, i in Last(us).recovery, current);
    vs := VerdictComes(us2, r, i, restarting, now + 2);
    assert vs[..|ws|] == us2[..|ws|] == us[..|ws|];
  }

  lemma Recovers(p: Proc, recovery: set<nat>, restarting: bool, i: nat)
    requires Unmarked(p, i)
    ensures restarting ==> i in Recovery(recovery, p.mem.messages, restarting)
  {
  }

  lemma VerdictComes(ws: seq<World>, r: nat, i: nat, restarting: bool, now: int) returns (vs: seq<World>)
    requires Run(ws) && now > Last(ws).clock && r in Last(ws).looks && Last(ws).looks[r].i == i
    requires Unmarked(Last(ws).p, i)
    requires var e := Last(ws).p.mem.messages[i]; Last(ws).looks[r].seen == (e.state, e.updatedAt)
    ensures Longer(ws, vs, ReadEnds(r, Proof.Started, Dead, restarting, SaveOk), now)
    ensures Doubted(Last(vs).p.mem, i) && !Last(vs).p.mem.messages[i].started && !Last(vs).p.closing
    ensures Last(vs).pumps == Last(ws).pumps && Last(vs).clock == now
  {
    hide Run, Goes, Next, CommitProof, LivenessOf, Typed;
    HasWorlds(ws);
    vs := GoOn(ws, ReadEnds(r, Proof.Started, Dead, restarting, SaveOk), now);
    StoppedIsDoubted(Last(ws).p, i, Last(ws).looks[r].recovering, restarting, now);
  }

  lemma MayRead(w: World, i: nat, restarting: bool, current: int)
    requires Unmarked(w.p, i)
    requires restarting || !Throttled(w.p.mem.messages[i], false, current)
    requires restarting ==> i in w.recovery
    ensures ReadsEvidence(w.p.mem.messages[i], i in w.recovery, current)
  {
  }

  /** Dispatching, scheduled, and not yet marked started. */
  predicate Unmarked(p: Proc, i: nat) {
    && !p.closing && i < |p.mem.messages|
    && var e := p.mem.messages[i]; e.kind.Message? && e.scheduled && e.state.Dispatching? && !e.started
  }

  lemma MarkKeeps(p: Proc, i: nat, recovering: bool, current: int)
    requires Unmarked(p, i)
    ensures var q := MarkRead(p, i, recovering, current);
            Unmarked(q, i) && q.mem.messages[i].updatedAt == p.mem.messages[i].updatedAt
  {
  }

  lemma StoppedIsDoubted(p: Proc, i: nat, recovering: bool, restarting: bool, now: int)
    requires Unmarked(p, i)
    ensures var e := p.mem.messages[i];
            var q := CommitProof(p, i, (e.state, e.updatedAt), Proof.Started,
                                 LivenessOf(e, Proof.Started, recovering, Dead), restarting, now, SaveOk);
            Doubted(q.mem, i) && !q.mem.messages[i].started && !q.closing
  {
    var e := p.mem.messages[i];
    assert Verdict(e, Proof.Started, Dead, restarting, now) == Some((Uncertain, StoppedReporting));
  }

  lemma ComesBack(p: Proc, i: nat, text: string, now: int)
    requires Doubted(p.mem, i) && !p.mem.messages[i].started && !p.closing
    ensures var q := SubmitFailed(p, i, RuntimeFailure(true, text), now, SaveOk);
            i < |q.mem.messages| && q.mem.messages[i].state.Waiting? && q.mem.messages[i].Blocks()
  {
  }

  /** Between the moment a scheduled message is handed to `scheduled_prepare` and its return. */
  ghost predicate BeingPrepared(w: World, tab: string) {
    && !w.p.closing && tab in w.pumps && w.pumps[tab].Prepares? && w.pumps[tab].i < |w.p.mem.messages|
    && w.p.mem.messages[w.pumps[tab].i].state.Unsent()
  }

  /** For instance: a message that was cancelled while it was prepared is failed when the preparation gives up. */
  lemma CancelledThenFailed(ws: seq<World>, tab: string, text: string, now: int) returns (vs: seq<World>)
    requires Run(ws) && now > ws[|ws| - 1].clock && BeingPrepared(ws[|ws| - 1], tab)
    ensures Run(vs) && |vs| == |ws| + 2 && vs[..|ws|] == ws
    ensures var i, n := ws[|ws| - 1].pumps[tab].i, |ws|;
            && Goes(vs[n - 1], vs[n], WithdrawScheduled(vs[n - 1].p.mem.messages[i].id, false, SaveOk), now)
            && Goes(vs[n], vs[n + 1], PrepareFails(tab, text, SaveOk), now + 1)
            && Rest(vs[n].p.mem, i) == Rest(vs[n].p.disk, i) == Some(Cancelled)
            && Rest(vs[n + 1].p.mem, i) == Rest(vs[n + 1].p.disk, i) == Some(Failed)
  {
    hide Starts, Linked, Goes, Next, First, Safe, Typed;
    var w, i := Last(ws), Last(ws).pumps[tab].i;
    RunIsSafe(ws, |ws| - 1);
    SubmittedIsMessage(w, tab);
    FoundById(w, i);
    var us := GoOn(ws, WithdrawScheduled(w.p.mem.messages[i].id, false, SaveOk), now);
    vs := GoOn(us, PrepareFails(tab, text, SaveOk), now + 1);
  }

  lemma FoundById(w: World, i: nat)
    requires Safe(w) && i < |w.p.mem.messages|
    ensures First(w.p.mem.messages, ById(w.p.mem.messages[i].id)) == i
  {
    MemAll(w);
    assert ById(w.p.mem.messages[i].id).Hit(w.p.mem.messages[i]);
  }
}
