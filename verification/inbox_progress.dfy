/** That a tab's queue can always be worked off: from any run, if nothing is in flight on the tab. */
module InboxProgress {
  import opened Options
  import opened ChatMessage
  import opened InboxStore
  import opened InboxOps
  import opened InboxProtocol
  import opened InboxSafety
  import opened InboxRuns
  import InboxMoves
  import InboxSteps
  import InboxPump
  import InboxTurns
  import InboxPass

  /** What the tab's target makes of it, once it has been observed. */
  function Base(s: Store, tab: string, t: Target): Incarnation
    requires t.Found?
  {
    Incarnate(Resolve(s, tab, t), tab, t)
  }

  /** Has the target become, or will it be by its binding, that of the message? */
  predicate Fits(e: Envelope, inc: Incarnation) { (e.scheduled && e.incarnation.Unset?) || e.incarnation == inc }

  predicate Steady(t: Target) { t.Found? && t.waitingReason == "" }

  /** The store in which the target has been observed, but for its messages. */
  ghost predicate Observed(s: Store, r: Store, tab: string, t: Target)
    requires t.Found?
  {
    r.epochs == Resolve(s, tab, t).epochs && r.conversations == Resolve(s, tab, t).conversations
  }

  lemma ObservedBase(s: Store, r: Store, tab: string, t: Target)
    requires t.Found? && Observed(s, r, tab, t)
    ensures Base(r, tab, t) == Base(s, tab, t) && Observed(s, Resolve(r, tab, t), tab, t)
  {
  }

  /** Nothing is in flight on the tab, and no pump is at work there. */
  ghost predicate Clear(w: World, tab: string) {
    && !w.p.closing && tab !in w.pumps
    && forall j | 0 <= j < |w.p.mem.messages| :: HeadOf(tab).Hit(w.p.mem.messages[j]) ==>
                                                   !w.p.mem.messages[j].state.InFlight()
  }

  // ------------------------------------------------------------------ one message, operation by operation

  /** The state of the process after one entry was changed and everything saved. */
  ghost predicate OneChanged(p: Proc, q: Proc, i: nat) {
    && i < |p.mem.messages| == |q.mem.messages| && q.mem == q.committed == q.disk && !q.closing
    && q.mem.messages == p.mem.messages[i := q.mem.messages[i]]
    && q.mem.messages[i].tab == p.mem.messages[i].tab && q.mem.messages[i].kind == p.mem.messages[i].kind
    && q.mem.messages[i].scheduled == p.mem.messages[i].scheduled
  }

  lemma Began(p: Proc, i: nat, inc: Incarnation, now: int)
    requires i < |p.mem.messages| && !p.closing
    ensures var e, r := p.mem.messages[i], BeginSubmit(p, i, inc, "", now, SaveOk);
            && OneChanged(p, r.0, i) && r.0.mem == p.mem.(messages := r.0.mem.messages)
            && r.0.mem.messages[i].incarnation == e.incarnation
            && (e.incarnation == inc ==>
                  && r.1 == Sent(i)
                  && r.0.mem.messages[i] == Stamp(e.(attempts := e.attempts + 1), Dispatching, NoNote, now))
            && (e.incarnation != inc ==> r.1 == Again && r.0.mem.messages[i].state.Failed?)
  {
    hide BeginSubmit;
    InboxTurns.BeginExactly(p, i, inc, "", now);
  }

  lemma Dispatched(p: Proc, i: nat, t: Target, now: int)
    requires i < |p.mem.messages| && !p.closing && Steady(t) && p.mem.messages[i].kind.Message?
    ensures var e, r := p.mem.messages[i], Dispatch(p, i, t, now, SaveOk, SaveOk);
            && OneChanged(p, r.0, i) && Observed(p.mem, r.0.mem, e.tab, t)
            && (Fits(e, Base(p.mem, e.tab, t)) ==>
                  && r.1 == Sent(i) && r.0.mem.messages[i].state.Dispatching?
                  && r.0.mem.messages[i].incarnation == Base(p.mem, e.tab, t)
                  && r.0.mem.messages[i].attempts == e.attempts + 1
                  && r.0.mem.messages[i].started == e.started)
            && (!Fits(e, Base(p.mem, e.tab, t)) ==> r.1 == Again && r.0.mem.messages[i].state.Failed?)
  {
    hide Resolve, BeginSubmit, Incarnate;
    var e := p.mem.messages[i];
    InboxMoves.ResolveAhead(p.mem, e.tab, t);
    var m, inc := Resolve(p.mem, e.tab, t), Base(p.mem, e.tab, t);
    if e.scheduled && e.incarnation.Unset? {
      Began(Save(p.(mem := m.(messages := m.messages[i := e.(incarnation := inc)])), SaveOk), i, inc, now);
    } else {
      Began(p.(mem := m), i, inc, now);
    }
  }

  lemma Marked(p: Proc, i: nat, t: Target)
    requires i < |p.mem.messages| && !p.closing && Steady(t) && p.mem.messages[i].kind.Message?
    requires var e := p.mem.messages[i]; e.state.Dispatching? && e.incarnation == Base(p.mem, e.tab, t)
    ensures var e, r := p.mem.messages[i], BeforeDelivery(p, i, t, SaveOk);
            && r.1 && OneChanged(p, r.0, i) && Observed(p.mem, r.0.mem, e.tab, t)
            && r.0.mem.messages[i].state.Dispatching?
  {
    hide Resolve, Restore;
    InboxMoves.ResolveAhead(p.mem, p.mem.messages[i].tab, t);
  }

  lemma Returned(p: Proc, i: nat, now: int)
    requires i < |p.mem.messages| && !p.closing && p.mem.messages[i].state.Dispatching?
    ensures var q := SubmitReturned(p, i, now, SaveOk);
            && OneChanged(p, q, i) && q.mem == p.mem.(messages := q.mem.messages)
            && q.mem.messages[i].state.Accepted?
  {
  }

  /** A time at which the evidence for an entry is read, whatever the throttle has noted. */
  function LaterThan(e: Envelope): int {
    var c := if e.recoveryCheckedAt.Some? then e.recoveryCheckedAt.value else 0;
    600 + (if e.updatedAt > c then e.updatedAt else c)
  }

  lemma IsRead(e: Envelope, recovering: bool)
    requires e.kind.Message? && e.state.Accepted?
    ensures ReadsEvidence(e, recovering, LaterThan(e))
  {
  }

  lemma Proven(p: Proc, i: nat, recovering: bool, current: int, liveness: Liveness, now: int)
    requires i < |p.mem.messages| && !p.closing && p.mem.messages[i].state.Accepted?
    ensures var e, q := p.mem.messages[i], MarkRead(p, i, recovering, current);
            && i < |q.mem.messages|
            && var r := CommitProof(q, i, (e.state, e.updatedAt), ProvenCompleted, liveness, false, now, SaveOk);
               && OneChanged(p, r, i) && r.mem == p.mem.(messages := r.mem.messages)
               && r.mem.messages[i].state.Completed?
  {
  }

  // ------------------------------------------------------------------ one message, step by step

  /** How the run stands when the message at the head of the tab is settled. */
  ghost predicate HeadSettled(ws: seq<World>, us: seq<World>, tab: string, i: nat, t: Target)
    requires t.Found?
  {
    && 0 < |ws| <= |us| && Run(us) && us[..|ws|] == ws
    && var w, v := Last(ws), Last(us);
       && i < |w.p.mem.messages| == |v.p.mem.messages|
       && v.p.mem.messages == w.p.mem.messages[i := v.p.mem.messages[i]]
       && !v.p.closing && v.pumps == w.pumps && Observed(w.p.mem, v.p.mem, tab, t)
       && v.p.mem.messages[i].tab == tab
       && (if Fits(w.p.mem.messages[i], Base(w.p.mem, tab, t)) then
             v.p.mem.messages[i].state.Completed? && v.contacts == w.contacts + [Contact(i, tab, Message)]
           else v.p.mem.messages[i].state.Failed? && v.contacts == w.contacts)
  }

  /** The world after the pump's turn on the message at the head. */
  ghost predicate HeadTaken(w: World, v: World, tab: string, i: nat, t: Target, now: int)
    requires t.Found? && i < |w.p.mem.messages|
  {
    && v.p == Dispatch(w.p, i, t, now, SaveOk, SaveOk).0
    && v.contacts == w.contacts
    && v.pumps == if Fits(w.p.mem.messages[i], Base(w.p.mem, tab, t))
                  then w.pumps[tab := Submits(i, Calling)] else w.pumps
  }

  lemma TurnTakes(w: World, tab: string, i: nat, t: Target, now: int)
    requires i < |w.p.mem.messages| && !w.p.closing && Steady(t) && w.p.mem.messages[i].kind.Message?
    requires w.p.mem.messages[i].tab == tab
    ensures HeadTaken(w, PumpLands(w, tab, Dispatch(w.p, i, t, now, SaveOk, SaveOk), now), tab, i, t, now)
  {
    hide Dispatch, Fits, Base, OneChanged, Observed;
    Dispatched(w.p, i, t, now);
  }

  /** The pump runs, and resumes if it has to prepare the message, up to the dispatch or the refusal. */
  lemma PumpsHead(ws: seq<World>, tab: string, i: nat, prepares: bool, t: Target)
      returns (us: seq<World>, now: int)
    requires Run(ws) && Clear(Last(ws), tab) && Steady(t) && Pick(Last(ws).p.mem.messages, tab) == Some(i)
    requires i < |Last(ws).p.mem.messages| && HeadOf(tab).Hit(Last(ws).p.mem.messages[i])
    ensures 0 < |ws| <= |us| && Run(us) && us[..|ws|] == ws
    ensures HeadTaken(Last(ws), Last(us), tab, i, t, now)
  {
    hide Goes, Run, Next, Typed, Dispatch, Pick, HeadTaken;
    HasWorlds(ws);
    var w := Last(ws);
    now := w.clock + 1;
    us := GoOn(ws, PumpRuns(tab, prepares, t, SaveOk, SaveOk), now);
    TurnTakes(w, tab, i, t, now);
    if w.p.mem.messages[i].scheduled && prepares {
      var mid := us;
      us, now := PreparedHead(mid, w, tab, i, t);
      assert us[..|ws|] == us[..|mid|][..|ws|];
    }
  }

  lemma PreparedHead(ws: seq<World>, w: World, tab: string, i: nat, t: Target) returns (us: seq<World>, now: int)
    requires Run(ws) && Clear(w, tab) && Steady(t)
    requires i < |w.p.mem.messages| && HeadOf(tab).Hit(w.p.mem.messages[i])
    requires Last(ws) == w.(pumps := w.pumps[tab := Prepares(i)], clock := Last(ws).clock)
    ensures Run(us) && |us| == |ws| + 1 && us[..|ws|] == ws
    ensures HeadTaken(w, Last(us), tab, i, t, now)
  {
    hide Goes, Run, Next, Typed, Dispatch, HeadTaken;
    HasWorlds(ws);
    now := Last(ws).clock + 1;
    us := GoOn(ws, PumpResumes(tab, "", t, SaveOk, SaveOk), now);
    var base := Last(ws).(pumps := Last(ws).pumps - {tab});
    assert base.pumps == w.pumps;
    TurnTakes(base, tab, i, t, now);
    SameTaken(w, base, Last(us), tab, i, t, now);
  }

  lemma SameTaken(w: World, u: World, v: World, tab: string, i: nat, t: Target, now: int)
    requires t.Found? && i < |w.p.mem.messages| && u == w.(clock := u.clock) && HeadTaken(u, v, tab, i, t, now)
    ensures HeadTaken(w, v, tab, i, t, now)
  {
  }

  /** The callback, the provider and the return of `submit`. */
  lemma Submission(ws: seq<World>, tab: string, i: nat, t: Target) returns (us: seq<World>)
    requires Run(ws) && tab in Last(ws).pumps && Last(ws).pumps[tab] == Submits(i, Calling) && Steady(t)
    requires i < |Last(ws).p.mem.messages| && !Last(ws).p.closing
    requires var e := Last(ws).p.mem.messages[i];
             e.tab == tab && e.kind.Message? && e.state.Dispatching? && e.incarnation == Base(Last(ws).p.mem, tab, t)
    ensures 0 < |ws| <= |us| && Run(us) && us[..|ws|] == ws
    ensures var w, v := Last(ws), Last(us);
            && OneChanged(w.p, v.p, i) && Observed(w.p.mem, v.p.mem, tab, t)
            && v.p.mem.messages[i].state.Accepted? && v.looks == w.looks
            && v.contacts == w.contacts + [Contact(i, tab, Message)] && v.pumps == w.pumps - {tab}
  {
    hide Goes, Run, Next, Typed, BeforeDelivery, SubmitReturned, Base, Resolve, Saw;
    HasWorlds(ws);
    var w := Last(ws);
    Marked(w.p, i, t);
    var us1 := GoOn(ws, Callback(tab, t, SaveOk), w.clock + 1);
    var us2 := GoOn(us1, ReachProvider(tab), w.clock + 2);
    Returned(Last(us2).p, i, w.clock + 3);
    us := GoOn(us2, SubmitReturns(tab, SaveOk), w.clock + 3);
    assert us[..|ws|] == us2[..|ws|] == us1[..|ws|];
  }

  /** The world in which a read about entry `i` has begun. */
  ghost predicate ReadingOf(w: World, u: World, r: nat, i: nat, current: int)
    requires i < |w.p.mem.messages|
  {
    var e := w.p.mem.messages[i];
    && u.p == MarkRead(w.p, i, i in w.recovery, current)
    && u == w.(p := u.p, clock := w.clock + 1,
               looks := w.looks[r := Read(i, (e.state, e.updatedAt), i in w.recovery, w.clock + 1)])
  }

  lemma ProofEnds(w: World, u: World, r: nat, i: nat, current: int)
    requires i < |w.p.mem.messages| && !w.p.closing && w.p.mem.messages[i].state.Accepted?
    requires ReadingOf(w, u, r, i, current) && Typed(u)
    ensures Enabled(u, ReadEnds(r, ProvenCompleted, Unknown, false, SaveOk), w.clock + 2)
    ensures var v := ReadNext(u, ReadEnds(r, ProvenCompleted, Unknown, false, SaveOk), w.clock + 2);
            && OneChanged(w.p, v.p, i) && v.p.mem == w.p.mem.(messages := v.p.mem.messages)
            && v.p.mem.messages[i].state.Completed?
            && v.contacts == w.contacts && v.pumps == w.pumps
  {
    hide MarkRead, CommitProof, LivenessOf, OneChanged;
    InboxPass.MarkedIsSeen(w.p, i, i in w.recovery, current);
    Proven(w.p, i, i in w.recovery, current,
           LivenessOf(u.p.mem.messages[i], ProvenCompleted, i in w.recovery, Unknown), w.clock + 2);
  }

  /** The evidence of its completion. */
  lemma Completion(ws: seq<World>, i: nat) returns (us: seq<World>)
    requires Run(ws) && i < |Last(ws).p.mem.messages| && !Last(ws).p.closing
    requires Last(ws).p.mem.messages[i].kind.Message? && Last(ws).p.mem.messages[i].state.Accepted?
    ensures 0 < |ws| <= |us| && Run(us) && us[..|ws|] == ws
    ensures var w, v := Last(ws), Last(us);
            && OneChanged(w.p, v.p, i) && v.p.mem == w.p.mem.(messages := v.p.mem.messages)
            && v.p.mem.messages[i].state.Completed?
            && v.contacts == w.contacts && v.pumps == w.pumps
  {
    hide Goes, Run, Next, Typed, MarkRead, CommitProof, ReadsEvidence, LaterThan, OneChanged;
    HasWorlds(ws);
    var w := Last(ws);
    var r := InboxPass.FreshRead(w.looks.Keys);
    var current := LaterThan(w.p.mem.messages[i]);
    IsRead(w.p.mem.messages[i], i in w.recovery);
    var mid := GoOn(ws, ReadBegins(r, i, current), w.clock + 1);
    RunIsTyped(mid, |mid| - 1);
    ProofEnds(w, Last(mid), r, i, current);
    us := GoOn(mid, ReadEnds(r, ProvenCompleted, Unknown, false, SaveOk), w.clock + 2);
    assert us[..|ws|] == us[..|mid|][..|ws|];
  }

  /** The message at the head of a clear tab can be settled: completed after it has reached its provider, or
      failed unsent if its tab has become another. */
  lemma SettlesHead(ws: seq<World>, tab: string, i: nat, prepares: bool, t: Target) returns (us: seq<World>)
    requires Run(ws) && Clear(Last(ws), tab) && Steady(t) && Pick(Last(ws).p.mem.messages, tab) == Some(i)
    requires i < |Last(ws).p.mem.messages| && HeadOf(tab).Hit(Last(ws).p.mem.messages[i])
    ensures HeadSettled(ws, us, tab, i, t)
  {
    hide Starts, Linked, Dispatch, Pick, Fits, Base, Resolve;
    var w := Last(ws);
    var us1, now := PumpsHead(ws, tab, i, prepares, t);
    Dispatched(w.p, i, t, now);
    us := us1;
    if Fits(w.p.mem.messages[i], Base(w.p.mem, tab, t)) {
      ObservedBase(w.p.mem, Last(us1).p.mem, tab, t);
      var us2 := Submission(us1, tab, i, t);
      ObservedTrans(w.p.mem, Last(us1).p.mem, Last(us2).p.mem, tab, t);
      us := Completion(us2, i);
      assert us[..|ws|] == us2[..|ws|] == us1[..|ws|];
      assert w.pumps[tab := Submits(i, Calling)] - {tab} == w.pumps;
    }
  }

  lemma ObservedTrans(s: Store, r: Store, q: Store, tab: string, t: Target)
    requires t.Found? && Observed(s, r, tab, t) && Observed(r, q, tab, t)
    ensures Observed(s, q, tab, t)
  {
    ObservedBase(s, r, tab, t);
  }

  // ------------------------------------------------------------------ the whole queue

  /** The contacts that are due: every message that blocks the tab and fits its target, in order. */
  function Due(ms: seq<Envelope>, tab: string, inc: Incarnation, i: nat): seq<Contact>
    requires i <= |ms|
    decreases |ms| - i
  {
    if i == |ms| then []
    else (if HeadOf(tab).Hit(ms[i]) && Fits(ms[i], inc) then [Contact(i, tab, Message)] else [])
         + Due(ms, tab, inc, i + 1)
  }

  /** From entry `i` on, every message that blocked the tab is completed, or failed if it did not fit; and all
      other entries are as they were. */
  ghost predicate WorkedOff(before: seq<Envelope>, after: seq<Envelope>, tab: string, inc: Incarnation, i: nat) {
    && |after| == |before|
    && (forall j {:trigger after[j]} | 0 <= j < |before| ::
          if i <= j && HeadOf(tab).Hit(before[j]) then
            after[j].state == if Fits(before[j], inc) then Completed else Failed
          else after[j] == before[j])
  }

  lemma {:induction false} DueLater(ms: seq<Envelope>, ns: seq<Envelope>, tab: string, inc: Incarnation, i: nat,
                                    k: nat)
    requires k < i <= |ms| == |ns| && ns == ms[k := ns[k]]
    ensures Due(ns, tab, inc, i) == Due(ms, tab, inc, i)
    decreases |ms| - i
  {
    if i < |ms| { DueLater(ms, ns, tab, inc, i + 1, k); }
  }

  lemma HeadIs(w: World, tab: string, i: nat)
    requires Clear(w, tab) && i < |w.p.mem.messages| && HeadOf(tab).Hit(w.p.mem.messages[i])
    requires forall j | 0 <= j < i :: !HeadOf(tab).Hit(w.p.mem.messages[j])
    ensures Pick(w.p.mem.messages, tab) == Some(i)
  {
  }

  /** What is settled at the head leaves the tab clear, with its head further on. */
  lemma ClearAgain(w: World, v: World, tab: string, i: nat)
    requires Clear(w, tab) && i < |w.p.mem.messages| == |v.p.mem.messages| && !v.p.closing && v.pumps == w.pumps
    requires v.p.mem.messages == w.p.mem.messages[i := v.p.mem.messages[i]]
    requires v.p.mem.messages[i].state.Terminal()
    requires forall j | 0 <= j < i :: !HeadOf(tab).Hit(w.p.mem.messages[j])
    ensures Clear(v, tab) && forall j | 0 <= j < i + 1 :: !HeadOf(tab).Hit(v.p.mem.messages[j])
  {
  }

  lemma WorkedOffMore(before: seq<Envelope>, mid: seq<Envelope>, after: seq<Envelope>, tab: string, inc: Incarnation,
                      i: nat)
    requires i < |before| == |mid| && mid == before[i := mid[i]] && WorkedOff(mid, after, tab, inc, i + 1)
    requires HeadOf(tab).Hit(before[i]) && mid[i].state == if Fits(before[i], inc) then Completed else Failed
    ensures WorkedOff(before, after, tab, inc, i)
  {
    hide Fits;
    assert after[i] == mid[i];
  }

  lemma {:induction false} QueueFrom(ws: seq<World>, tab: string, i: nat, prepares: bool, t: Target)
      returns (us: seq<World>)
    requires Run(ws) && Clear(Last(ws), tab) && Steady(t) && i <= |Last(ws).p.mem.messages|
    requires forall j | 0 <= j < i :: !HeadOf(tab).Hit(Last(ws).p.mem.messages[j])
    ensures 0 < |ws| <= |us| && Run(us) && us[..|ws|] == ws
    ensures var w, v, inc := Last(ws), Last(us), Base(Last(ws).p.mem, tab, t);
            && Clear(v, tab) && WorkedOff(w.p.mem.messages, v.p.mem.messages, tab, inc, i)
            && v.contacts == w.contacts + Due(w.p.mem.messages, tab, inc, i)
    decreases |Last(ws).p.mem.messages| - i
  {
    hide Run, Fits, Base, Resolve, Pick, WorkedOff, HeadSettled, Clear, Query.Hit;
    HasWorlds(ws);
    var w := Last(ws);
    var ms, inc := w.p.mem.messages, Base(w.p.mem, tab, t);
    us := ws;
    if i == |ms| {
      NothingLeft(ms, tab, inc);
    } else if HeadOf(tab).Hit(ms[i]) {
      HeadIs(w, tab, i);
      var mid := SettlesHead(ws, tab, i, prepares, t);
      AfterHead(ws, mid, tab, i, t);
      us := QueueFrom(mid, tab, i + 1, prepares, t);
      HeadAndRest(ws, mid, us, tab, i, t);
    } else {
      us := QueueFrom(ws, tab, i + 1, prepares, t);
      WorkedOffSkip(ms, Last(us).p.mem.messages, tab, inc, i);
    }
  }

  lemma AfterHead(ws: seq<World>, mid: seq<World>, tab: string, i: nat, t: Target)
    requires |ws| > 0 && Clear(Last(ws), tab) && t.Found? && HeadSettled(ws, mid, tab, i, t)
    requires forall j | 0 <= j < i :: !HeadOf(tab).Hit(Last(ws).p.mem.messages[j])
    ensures |mid| > 0 && Run(mid) && Clear(Last(mid), tab)
    ensures i < |Last(mid).p.mem.messages| == |Last(ws).p.mem.messages|
    ensures forall j | 0 <= j < i + 1 :: !HeadOf(tab).Hit(Last(mid).p.mem.messages[j])
  {
    hide Run, Fits, Base, Resolve, Observed;
    ClearAgain(Last(ws), Last(mid), tab, i);
  }

  lemma HeadAndRest(ws: seq<World>, mid: seq<World>, us: seq<World>, tab: string, i: nat, t: Target)
    requires |ws| > 0 && t.Found? && HeadSettled(ws, mid, tab, i, t)
    requires HeadOf(tab).Hit(Last(ws).p.mem.messages[i])
    requires 0 < |mid| <= |us| && us[..|mid|] == mid
    requires var m, inc := Last(mid), Base(Last(mid).p.mem, tab, t);
             && WorkedOff(m.p.mem.messages, Last(us).p.mem.messages, tab, inc, i + 1)
             && Last(us).contacts == m.contacts + Due(m.p.mem.messages, tab, inc, i + 1)
    ensures |ws| <= |us| && us[..|ws|] == ws
    ensures var w, inc := Last(ws), Base(Last(ws).p.mem, tab, t);
            && WorkedOff(w.p.mem.messages, Last(us).p.mem.messages, tab, inc, i)
            && Last(us).contacts == w.contacts + Due(w.p.mem.messages, tab, inc, i)
  {
    hide Run, Fits, Base, Resolve, WorkedOff, Observed, Query.Hit;
    var w, m := Last(ws), Last(mid);
    var ms, inc := w.p.mem.messages, Base(w.p.mem, tab, t);
    ObservedBase(w.p.mem, m.p.mem, tab, t);
    DueLater(ms, m.p.mem.messages, tab, inc, i + 1, i);
    WorkedOffMore(ms, m.p.mem.messages, Last(us).p.mem.messages, tab, inc, i);
    assert us[..|ws|] == us[..|mid|][..|ws|];
    assert w.contacts + [Contact(i, tab, Message)] + Due(ms, tab, inc, i + 1)
           == w.contacts + ([Contact(i, tab, Message)] + Due(ms, tab, inc, i + 1));
  }

  lemma NothingLeft(ms: seq<Envelope>, tab: string, inc: Incarnation)
    ensures WorkedOff(ms, ms, tab, inc, |ms|)
  {
  }

  lemma WorkedOffSkip(before: seq<Envelope>, after: seq<Envelope>, tab: string, inc: Incarnation, i: nat)
    requires i < |before| && !HeadOf(tab).Hit(before[i]) && WorkedOff(before, after, tab, inc, i + 1)
    ensures WorkedOff(before, after, tab, inc, i)
  {
  }

  /** Wherever a run has led, if the inbox is open and nothing is in flight on a tab, the run can go on so that
      every message that blocks the tab is settled: those that fit the target reach their provider one after
      the other, in order, and are completed, and those whose tab has become another are failed; then
      nothing blocks the tab, and every other entry is as it was. */
  lemma QueueGetsThrough(ws: seq<World>, tab: string, prepares: bool, t: Target) returns (us: seq<World>)
    requires Run(ws) && Clear(Last(ws), tab) && Steady(t)
    ensures 0 < |ws| <= |us| && Run(us) && us[..|ws|] == ws
    ensures var w, v, inc := Last(ws), Last(us), Base(Last(ws).p.mem, tab, t);
            && WorkedOff(w.p.mem.messages, v.p.mem.messages, tab, inc, 0)
            && v.contacts == w.contacts + Due(w.p.mem.messages, tab, inc, 0)
            && forall j | 0 <= j < |v.p.mem.messages| :: !HeadOf(tab).Hit(v.p.mem.messages[j])
  {
    hide Starts, Linked, Fits, Base, Clear, Resolve;
    us := QueueFrom(ws, tab, 0, prepares, t);
  }
}
