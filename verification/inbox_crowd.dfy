/** When two messages of one tab come to be under way at once. */
module InboxCrowd {
  import opened Options
  import opened ChatMessage
  import opened InboxStore
  import opened InboxEvolution
  import opened InboxOps
  import opened InboxMoves
  import opened InboxProtocol
  import opened InboxSafety
  import opened InboxSteps
  import opened InboxRuns

  ghost predicate UnderwayOn(s: Store, i: nat, tab: string) { UnderwayAt(s, i) && s.messages[i].tab == tab }

  ghost predicate Busy(s: Store, tab: string) { exists i: nat :: UnderwayOn(s, i, tab) }

  ghost predicate Crowded(s: Store, tab: string) {
    exists i: nat, j: nat :: i < j && UnderwayOn(s, i, tab) && UnderwayOn(s, j, tab)
  }

  /** The step admits a message of the tab in flight, and saves it. */
  predicate Enters(w: World, s: Step, tab: string) {
    && s.Admit? && s.item.tab == tab && s.item.state.InFlight()
    && !w.p.closing && Fresh(w, s.item.id) && s.o.SaveOk?
  }

  /** Is entry `i` dispatched, with `t` for its target and saves that end as given? */
  predicate Clears(p: Proc, i: nat, t: Target, bind: Saving, o: Saving)
    requires i < |p.mem.messages|
  {
    var e := p.mem.messages[i];
    && !p.closing && t.Found? && t.waitingReason == "" && o.SaveOk?
    && (if e.scheduled && e.incarnation.Unset? then bind.SaveOk?
        else e.incarnation == Incarnate(Resolve(p.mem, e.tab, t), e.tab, t))
  }

  /** The step dispatches the message of the tab that was being prepared. */
  predicate Resumes(w: World, s: Step, tab: string) {
    && s.PumpResumes? && s.tab == tab && tab in w.pumps && s.reason == ""
    && w.pumps[tab].i < |w.p.mem.messages| && w.p.mem.messages[w.pumps[tab].i].Blocks()
    && Clears(w.p, w.pumps[tab].i, s.t, s.bind, s.o)
  }

  // ------------------------------------------------------------------ single operations

  lemma ClearsExactly(p: Proc, i: nat, t: Target, now: int, bind: Saving, o: Saving)
    requires i < |p.mem.messages|
    ensures Dispatch(p, i, t, now, bind, o).1.Sent? <==> Clears(p, i, t, bind, o)
  {
    hide Restore;
    if t.Found? { ResolveAhead(p.mem, p.mem.messages[i].tab, t); }
  }

  /** A dispatch that is not cleared leaves the entry out of flight. */
  lemma UnclearedRests(p: Proc, i: nat, t: Target, now: int, bind: Saving, o: Saving)
    requires Coherent(p) && Ready(p.mem, i) && !Clears(p, i, t, bind, o)
    ensures !UnderwayAt(Dispatch(p, i, t, now, bind, o).0.mem, i)
  {
    hide Inv, Evolves, Restore, Ahead, Move;
    var e := p.mem.messages[i];
    CommittedInv(p);
    CommittedRests(p, i);
    if t.NoTarget? {
      ChangeRests(p, i, if t.status == 404 then Cancelled else Failed, Text(t.detail), now, o);
    } else {
      var m := Resolve(p.mem, e.tab, t);
      ResolveAhead(p.mem, e.tab, t);
      if e.scheduled && e.incarnation.Unset? {
        var c := Replace(m, i, e.(incarnation := Incarnate(m, e.tab, t)));
        SaveOutcome(p.(mem := c), bind);
        if bind.SaveOk? {
          BindMove(p, i, t, now, bind);
          MoveKeeps(p, Save(p.(mem := c), bind), now, Some(i));
          BeginRests(Save(p.(mem := c), bind), i, Incarnate(m, e.tab, t), t.waitingReason, now, o);
        }
      } else {
        BeginRests(p.(mem := m), i, Incarnate(m, e.tab, t), t.waitingReason, now, o);
      }
    }
  }

  lemma CommittedRests(p: Proc, i: nat)
    requires Coherent(p) && i < |p.mem.messages| && !p.mem.messages[i].state.InFlight()
    ensures !UnderwayAt(p.committed, i)
  {
    AheadRest(p.committed, p.mem);
  }

  lemma ChangeRests(p: Proc, i: nat, s: State, reason: Note, now: int, o: Saving)
    requires Inv(p.committed) && i < |p.mem.messages| && !p.mem.messages[i].state.InFlight()
    requires !UnderwayAt(p.committed, i) && (!s.InFlight() || p.closing || !o.SaveOk?)
    ensures !UnderwayAt(Change(p, i, s, reason, now, o).mem, i)
  {
    hide Inv, Restore;
    SaveOutcome(p.(mem := Replace(p.mem, i, Stamp(p.mem.messages[i], s, reason, now))), o);
  }

  lemma BeginRests(p: Proc, i: nat, inc: Incarnation, waitingReason: string, now: int, o: Saving)
    requires Inv(p.committed) && i < |p.mem.messages| && !p.mem.messages[i].state.InFlight()
    requires !UnderwayAt(p.committed, i)
    requires inc != p.mem.messages[i].incarnation || waitingReason != "" || p.closing || !o.SaveOk?
    ensures !UnderwayAt(BeginSubmit(p, i, inc, waitingReason, now, o).0.mem, i)
  {
    hide Inv, Change;
    var e := p.mem.messages[i];
    if inc != e.incarnation {
      ChangeRests(p, i, Failed, IncarnationChanged, now, o);
    } else if waitingReason != "" {
      ChangeRests(p, i, Waiting, Text(waitingReason), now, o);
    } else {
      ChangeRests(p.(mem := Replace(p.mem, i, e.(attempts := e.attempts + 1))), i, Dispatching, NoNote, now, o);
    }
  }

  lemma ResumeTakes(p: Proc, i: nat, reason: string, t: Target, now: int, bind: Saving, o: Saving)
    requires Coherent(p) && i < |p.mem.messages| && !p.mem.messages[i].state.InFlight()
    requires p.mem.messages[i].Blocks() ==> Ready(p.mem, i)
    ensures UnderwayAt(Resume(p, i, reason, t, now, bind, o).0.mem, i) ==>
              reason == "" && p.mem.messages[i].Blocks() && Clears(p, i, t, bind, o)
  {
    hide Inv, Evolves, Dispatch, Change, Clears;
    CommittedInv(p);
    CommittedRests(p, i);
    if p.mem.messages[i].Blocks() {
      if reason != "" {
        ChangeRests(p, i, Waiting, Text(reason), now, o);
      } else if !Clears(p, i, t, bind, o) {
        UnclearedRests(p, i, t, now, bind, o);
      }
    }
  }

  lemma ResumeSends(p: Proc, i: nat, t: Target, now: int, bind: Saving, o: Saving)
    requires i < |p.mem.messages| && p.mem.messages[i].Blocks() && p.mem.messages[i].kind.Message?
    requires Clears(p, i, t, bind, o)
    ensures var q := Resume(p, i, "", t, now, bind, o).0;
            && q.mem.messages == p.mem.messages[i := q.mem.messages[i]]
            && q.mem.messages[i].state.Dispatching?
  {
    hide Dispatch, Clears;
    ClearsExactly(p, i, t, now, bind, o);
    DispatchSent(p, i, t, now, bind, o);
  }

  lemma AdmitIs(w: World, s: Step, now: int)
    requires Typed(w) && Enabled(w, s, now) && s.Admit?
    ensures var (m, e) := ScheduledItem(w, s.item, s.t);
            && CallNext(w, s, now).p == AdmitScheduled(w.p.(mem := m), e, s.enforceLimit, s.limits, s.o).0
            && m.messages == w.p.mem.messages && e == s.item.(incarnation := e.incarnation)
  {
    hide AdmitScheduled, Acked, Saw, Resolve, Admissible, Fresh;
    if s.t.Found? { ResolveAhead(w.p.mem, s.item.tab, s.t); }
  }

  lemma AdmittedAt(p: Proc, e: Envelope, enforceLimit: bool, limits: Limits, o: Saving)
    requires Coherent(p) && e.Underway()
    ensures var q, n := AdmitScheduled(p, e, enforceLimit, limits, o).0, |p.mem.messages|;
            if !p.closing && First(p.mem.messages, ById(e.id)) == n && o.SaveOk? then
              && |q.mem.messages| == n + 1 && q.mem.messages[..n] == p.mem.messages
              && q.mem.messages[n].tab == e.tab && q.mem.messages[n].Underway()
            else |q.mem.messages| == n
  {
    hide First, MaxSequence, CountBlocking, Restore, Inv, Evolves;
    CommittedInv(p);
    SaveOutcome(p.(mem := Append(p.mem, e.(sequence := MaxSequence(p.mem.messages) + 1))), o);
  }

  lemma AdmitEnters(w: World, s: Step, now: int)
    requires Coherent(w.p) && Typed(w) && Enabled(w, s, now) && s.Admit? && s.item.Underway()
    ensures var q, n := CallNext(w, s, now).p, |w.p.mem.messages|;
            if !w.p.closing && Fresh(w, s.item.id) && s.o.SaveOk? then
              && |q.mem.messages| == n + 1 && q.mem.messages[..n] == w.p.mem.messages
              && q.mem.messages[n].tab == s.item.tab && q.mem.messages[n].Underway()
            else |q.mem.messages| == n
  {
    hide CallNext, Enabled, Typed, AdmitScheduled, First, Coherent, Move, Inv, Evolves, Resolve;
    AdmitIs(w, s, now);
    var (m, e) := ScheduledItem(w, s.item, s.t);
    if s.t.Found? { ResolveAhead(w.p.mem, s.item.tab, s.t); } else { AheadSelf(w.p.mem); }
    QuietMove(w.p, m, now, None);
    MoveKeeps(w.p, w.p.(mem := m), now, None);
    AdmittedAt(w.p.(mem := m), e, s.enforceLimit, s.limits, s.o);
  }

  lemma AdmittedUnderway(w: World, s: Step, now: int)
    requires Enabled(w, s, now) && s.Admit?
    ensures s.item.state.InFlight() <==> s.item.Underway()
  {
  }

  // ------------------------------------------------------------------ steps

  lemma SameTab(w: World, v: World, i: nat)
    requires Safe(w) && Safe(v) && Evolves(w.p.committed, v.p.committed) && i < |w.p.mem.messages|
    ensures i < |v.p.mem.messages| && v.p.mem.messages[i].tab == w.p.mem.messages[i].tab
    ensures v.p.mem.messages[i].kind == w.p.mem.messages[i].kind
  {
    MemLike(w, i);
    assert Follows(w.p.committed.messages[i], v.p.committed.messages[i]);
    NoMemory(v);
    MemLike(v, i);
  }

  /** The entry taken up by a step after which its tab is crowded. */
  lemma TakenIs(w: World, s: Step, now: int, tab: string, x: nat, y: nat)
    requires Safe(w) && Typed(w) && Enabled(w, s, now) && Taken(w, s) == Some(x)
    requires UnderwayOn(w.p.mem, y, tab) && !UnderwayAt(w.p.mem, x)
    requires UnderwayOn(Next(w, s, now).p.mem, x, tab)
    requires x < |w.p.mem.messages| ==> w.p.mem.messages[x].tab == tab
    ensures Enters(w, s, tab) || Resumes(w, s, tab)
  {
    hide Safe, CallNext, PumpNext, AnswerNext, ReadNext, Enabled, Pick, Clears;
    SafeCoherent(w);
    match s {
      case PumpRuns(t, _, _, _, _) =>
        PickedIsNext(w, t);
        PickExcludes(w.p.mem.messages, t, y);
        assert false;
      case PumpResumes(t, reason, target, bind, o) =>
        ResumeLands(w, s, now);
        MemPrepared(w, t);
        if w.p.mem.messages[x].Blocks() { NextIsReady(w.p.mem, x, t); }
        ResumeTakes(w.p, x, reason, target, now, bind, o);
      case Admit(_, _, _, _, _) =>
        AdmittedUnderway(w, s, now);
        AdmitEnters(w, s, now);
      case _ =>
    }
  }

  lemma PickExcludes(ms: seq<Envelope>, tab: string, y: nat)
    requires y < |ms| && ms[y].Underway() && ms[y].tab == tab
    ensures Pick(ms, tab).None?
  {
    assert HeadOf(tab).Hit(ms[y]) && ms[y].state.InFlight();
  }

  lemma ResumeLands(w: World, s: Step, now: int)
    requires Typed(w) && Enabled(w, s, now) && s.PumpResumes?
    ensures s.tab in w.pumps && w.pumps[s.tab].Prepares? && w.pumps[s.tab].i < |w.p.mem.messages|
    ensures PumpNext(w, s, now).p == Resume(w.p, w.pumps[s.tab].i, s.reason, s.t, now, s.bind, s.o).0
  {
    hide Resume;
  }

  lemma CrowdComes(w: World, s: Step, now: int, tab: string)
    requires Safe(w) && Typed(w) && Enabled(w, s, now) && !s.Crash?
    requires !Crowded(w.p.mem, tab) && Crowded(Next(w, s, now).p.mem, tab)
    ensures Busy(w.p.mem, tab) && (Enters(w, s, tab) || Resumes(w, s, tab))
  {
    hide Safe, Next, Enabled, Typed, Evolves, Remembers, KeepsRest, UnderwayAt, Taken, Enters, Resumes;
    StepIsSafe(w, s, now);
    var v := Next(w, s, now);
    var i: nat, j: nat :| i < j && UnderwayOn(v.p.mem, i, tab) && UnderwayOn(v.p.mem, j, tab);
    if s.StartEnds? {
      StartEndsIsSafe(w, now);
      assert false;
    }
    if UnderwayAt(w.p.mem, i) { StillOn(w, v, i, tab); }
    if UnderwayAt(w.p.mem, j) { StillOn(w, v, j, tab); }
    var x, y := if UnderwayAt(w.p.mem, i) then j else i, if UnderwayAt(w.p.mem, i) then i else j;
    assert UnderwayAt(w.p.mem, y) && !UnderwayAt(w.p.mem, x);
    if x < |w.p.mem.messages| { SameTab(w, v, x); }
    TakenIs(w, s, now, tab, x, y);
  }

  lemma StillOn(w: World, v: World, i: nat, tab: string)
    requires Safe(w) && Safe(v) && Evolves(w.p.committed, v.p.committed) && UnderwayAt(w.p.mem, i)
    requires UnderwayOn(v.p.mem, i, tab)
    ensures UnderwayOn(w.p.mem, i, tab)
  {
    hide Safe, Evolves;
    SameTab(w, v, i);
  }

  lemma AdmitCrowds(w: World, s: Step, now: int, tab: string, y: nat)
    requires Safe(w) && Typed(w) && Enabled(w, s, now) && UnderwayOn(w.p.mem, y, tab) && Enters(w, s, tab)
    ensures Crowded(Next(w, s, now).p.mem, tab)
  {
    hide Safe, CallNext, PumpNext, AnswerNext, ReadNext, Enabled, Fresh;
    var v, n := Next(w, s, now), |w.p.mem.messages|;
    AdmittedUnderway(w, s, now);
    SafeCoherent(w);
    AdmitEnters(w, s, now);
    assert v.p.mem.messages[..n][y] == v.p.mem.messages[y];
    assert UnderwayOn(v.p.mem, y, tab) && UnderwayOn(v.p.mem, n, tab);
  }

  /** Whatever is under way when a prepared message is dispatched was admitted behind it. */
  lemma ResumeCrowds(w: World, s: Step, now: int, tab: string, y: nat)
    requires Safe(w) && Typed(w) && Enabled(w, s, now) && UnderwayOn(w.p.mem, y, tab) && Resumes(w, s, tab)
    ensures Crowded(Next(w, s, now).p.mem, tab)
  {
    hide Safe, CallNext, PumpNext, AnswerNext, ReadNext, Enabled, Typed, Clears;
    var v, x := Next(w, s, now), w.pumps[tab].i;
    ResumeLands(w, s, now);
    MemPrepared(w, tab);
    ResumeSends(w.p, x, s.t, now, s.bind, s.o);
    StepIsSafe(w, s, now);
    SameTab(w, v, x);
    assert UnderwayOn(v.p.mem, y, tab) && UnderwayOn(v.p.mem, x, tab);
  }

  /** Two messages of a tab come to be under way at once exactly when one is already, and a step saves the
      admission of another in flight, or dispatches one that was picked before the first was admitted and has
      been prepared since.  After a crash they are exactly if the file says so. */
  lemma CrowdedExactly(w: World, s: Step, now: int, tab: string)
    requires Safe(w) && Typed(w) && Enabled(w, s, now) && !Crowded(w.p.mem, tab)
    ensures !s.Crash? ==>
              (Crowded(Next(w, s, now).p.mem, tab) <==>
               Busy(w.p.mem, tab) && (Enters(w, s, tab) || Resumes(w, s, tab)))
    ensures s.Crash? ==> (Crowded(Next(w, s, now).p.mem, tab) <==> Crowded(w.p.disk, tab))
  {
    hide Safe, Next, Enabled, Typed, Crowded, UnderwayOn, Enters, Resumes, Evolves;
    if s.Crash? {
      CrashIsSafe(w, now);
    } else if Crowded(Next(w, s, now).p.mem, tab) {
      CrowdComes(w, s, now, tab);
    } else if Busy(w.p.mem, tab) && (Enters(w, s, tab) || Resumes(w, s, tab)) {
      var y: nat :| UnderwayOn(w.p.mem, y, tab);
      if Enters(w, s, tab) { AdmitCrowds(w, s, now, tab, y); } else { ResumeCrowds(w, s, now, tab, y); }
    }
  }
}
