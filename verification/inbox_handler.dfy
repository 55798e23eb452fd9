/** What the end of a raising `submit` leaves of a message, and how often a message is tried. */
module InboxHandler {
  import opened Options
  import opened ChatMessage
  import opened InboxStore
  import opened InboxEvolution
  import opened InboxOps
  import opened InboxMoves
  import opened InboxProtocol
  import opened InboxRuns
  import opened InboxProgress
  import InboxSteps

  /** The failures that say nothing about the message, so that it is tried again. */
  predicate Transient(f: Failure, scheduled: bool) {
    || f.TaskCancelled?
    || (f.InboxFailure? && f.status != 403 && f.status != 404 && f.status != 409)
    || (!scheduled && (f.RuntimeFailure? || f.OtherFailure?))
  }

  /** The failures for which the message has to wait without having been tried. */
  predicate InTheWay(f: Failure, scheduled: bool) {
    || (f.InboxFailure? && f.status == 409)
    || (scheduled && f.RuntimeFailure? && f.inFlight)
  }

  /** The tries a message has: twelve, and one more if it is scheduled. */
  function Tries(scheduled: bool): int { if scheduled then 13 else 12 }

  /** What the handler has made of an unfinished message. */
  ghost predicate Handled(e: Envelope, f: Failure, now: int, g: Envelope) {
    && g == e.(state := g.state, updatedAt := now, attempts := g.attempts, waitingReason := g.waitingReason,
               error := g.error, adopted := g.adopted)
    && (g.adopted <==> e.adopted && !g.state.Waiting?)
    && (g.state.Uncertain? || g.state.Waiting? || g.state.Failed?)
    && (g.state.Uncertain? <==> e.started)
    && (g.state.Waiting? <==>
          !e.started && (InTheWay(f, e.scheduled) || (Transient(f, e.scheduled) && e.attempts < Tries(e.scheduled))))
    && (if e.started || !InTheWay(f, e.scheduled) then g.attempts == e.attempts
        else if e.scheduled then g.attempts == (if e.attempts > 0 then e.attempts - 1 else 0)
        else g.attempts == 0)
    && (g.state.Uncertain? ==> g.error == SubmissionUnconfirmed && g.waitingReason.NoNote?)
    && (g.state.Waiting? ==>
          && g.error.NoNote?
          && g.waitingReason == (if Transient(f, e.scheduled) then WaitingForRuntime
                                 else if f.RuntimeFailure? then WaitingForResponse else Text(f.detail)))
    && (g.state.Failed? ==>
          && g.waitingReason.NoNote?
          && g.error == (if Transient(f, e.scheduled) then RuntimeUnavailable
                         else if f.InboxFailure? then Text(f.detail) else Text(f.text)))
  }

  lemma HandlerSaves(p: Proc, i: nat, f: Failure, now: int)
    requires i < |p.mem.messages| && !p.mem.messages[i].state.Terminal() && !p.closing
    ensures var e, q := p.mem.messages[i], SubmitFailed(p, i, f, now, SaveOk);
            && q.mem == q.committed == q.disk && !q.closing && |q.mem.messages| == |p.mem.messages|
            && q.mem == p.mem.(messages := p.mem.messages[i := q.mem.messages[i]])
            && Handled(e, f, now, q.mem.messages[i])
  {
    hide Handled, AfterFailure;
    FailureHandles(p.mem.messages[i], f, now);
  }

  /** The end of a raising `submit`, for every message and failure: a finished message stays as it is; any other
      becomes what `Handled` says, if that can be saved; while closing only the attempts are counted. */
  lemma HandlerExactly(p: Proc, i: nat, f: Failure, now: int, o: Saving)
    requires Coherent(p) && i < |p.mem.messages|
    ensures var e, q := p.mem.messages[i], SubmitFailed(p, i, f, now, o);
            && (e.state.Terminal() ==> q == p)
            && (!e.state.Terminal() && p.closing ==>
                  && q == p.(mem := q.mem) && |q.mem.messages| == |p.mem.messages|
                  && q.mem == p.mem.(messages := p.mem.messages[i := e.(attempts := q.mem.messages[i].attempts)]))
            && (!e.state.Terminal() && !p.closing && o.SaveOk? ==>
                  && q.mem == q.committed == q.disk && !q.closing && |q.mem.messages| == |p.mem.messages|
                  && q.mem == p.mem.(messages := p.mem.messages[i := q.mem.messages[i]])
                  && Handled(e, f, now, q.mem.messages[i]))
            && (!e.state.Terminal() && !p.closing && !o.SaveOk? ==> q.closing && q.mem == q.committed == p.committed)
  {
    hide Inv, Evolves, Restore, Handled, AfterFailure;
    CommittedInv(p);
    var live := p.mem.messages[i];
    if !live.state.Terminal() && !p.closing {
      if o.SaveOk? {
        HandlerSaves(p, i, f, now);
      } else {
        var (attempts, state, reason) := AfterFailure(live, f);
        var m := Replace(p.mem, i, live.(attempts := attempts));
        SaveOutcome(p.(mem := Replace(m, i, Stamp(m.messages[i], state, reason, now))), o);
      }
    }
  }

  lemma FailureHandles(e: Envelope, f: Failure, now: int)
    ensures var (attempts, state, reason) := AfterFailure(e, f);
            Handled(e, f, now, Stamp(e.(attempts := attempts), state, reason, now))
  {
  }

  // ------------------------------------------------------------------ one try after another

  /** A pump dispatches, and the `submit` it started raises `f`. */
  ghost predicate Tried(w: World, u: World, v: World, tab: string, prepares: bool, t: Target, f: Failure) {
    exists a, b ::
      Goes(w, u, PumpRuns(tab, prepares, t, SaveOk, SaveOk), a) && Goes(u, v, SubmitFails(tab, f, SaveOk), b)
  }

  /** The message at the head of a clear tab, which has not been started and fits the target. */
  ghost predicate ToTry(w: World, tab: string, i: nat, prepares: bool, t: Target) {
    && Clear(w, tab) && Steady(t) && i < |w.p.mem.messages| && HeadOf(tab).Hit(w.p.mem.messages[i])
    && (forall j | 0 <= j < i :: !HeadOf(tab).Hit(w.p.mem.messages[j]))
    && var e := w.p.mem.messages[i];
       !e.started && !(e.scheduled && prepares) && Fits(e, Base(w.p.mem, tab, t))
  }

  /** The message between its dispatch and its failure. */
  ghost predicate Trying(w: World, u: World, tab: string, i: nat, t: Target)
    requires t.Found? && i < |w.p.mem.messages|
  {
    var e := w.p.mem.messages[i];
    && OneChanged(w.p, u.p, i) && Observed(w.p.mem, u.p.mem, tab, t)
    && u.p.mem.messages[i].state.Dispatching? && u.p.mem.messages[i].attempts == e.attempts + 1
    && !u.p.mem.messages[i].started && u.p.mem.messages[i].incarnation == Base(w.p.mem, tab, t)
    && u.contacts == w.contacts && u.pumps == w.pumps[tab := Submits(i, Calling)]
  }

  lemma Sends(w: World, u: World, tab: string, i: nat, prepares: bool, t: Target, now: int)
    requires ToTry(w, tab, i, prepares, t) && Goes(w, u, PumpRuns(tab, prepares, t, SaveOk, SaveOk), now)
    ensures Trying(w, u, tab, i, t)
  {
    hide Next, Enabled, Typed, Dispatch, Pick, Fits, Base, Clear, OneChanged, Observed, Query.Hit;
    InboxSteps.NextIs(w, PumpRuns(tab, prepares, t, SaveOk, SaveOk), now);
    HeadIs(w, tab, i);
    HeadIsMessage(w, tab, i);
    Dispatched(w.p, i, t, now);
  }

  lemma HeadIsMessage(w: World, tab: string, i: nat)
    requires Clear(w, tab) && i < |w.p.mem.messages| && HeadOf(tab).Hit(w.p.mem.messages[i])
    ensures !w.p.closing && tab !in w.pumps
    ensures var e := w.p.mem.messages[i]; e.kind.Message? && e.tab == tab && e.Blocks()
  {
  }

  /** What is left after the failure of a try. */
  lemma Fails(w: World, u: World, v: World, tab: string, i: nat, prepares: bool, t: Target, f: Failure, now: int)
    requires ToTry(w, tab, i, prepares, t) && Trying(w, u, tab, i, t)
    requires Transient(f, w.p.mem.messages[i].scheduled) && Goes(u, v, SubmitFails(tab, f, SaveOk), now)
    ensures OneChanged(w.p, v.p, i) && Observed(w.p.mem, v.p.mem, tab, t)
    ensures v.contacts == w.contacts && v.pumps == w.pumps
    ensures var e, g := w.p.mem.messages[i], v.p.mem.messages[i];
            && !g.started && g.attempts == e.attempts + 1 && g.incarnation == Base(w.p.mem, tab, t)
            && (if e.attempts + 1 < Tries(e.scheduled) then g.state.Waiting? && g.waitingReason == WaitingForRuntime
                else g.state.Failed? && g.error == RuntimeUnavailable)
  {
    hide Next, Typed, Fits, Base, SubmitFailed, Resolve;
    InboxSteps.NextIs(u, SubmitFails(tab, f, SaveOk), now);
    HandlerSaves(u.p, i, f, now);
    assert w.pumps[tab := Submits(i, Calling)] - {tab} == w.pumps;
  }

  lemma StillToTry(w: World, v: World, tab: string, i: nat, prepares: bool, t: Target)
    requires ToTry(w, tab, i, prepares, t) && OneChanged(w.p, v.p, i) && Observed(w.p.mem, v.p.mem, tab, t)
    requires v.pumps == w.pumps && v.p.mem.messages[i].state.Waiting? && !v.p.mem.messages[i].started
    requires v.p.mem.messages[i].incarnation == Base(w.p.mem, tab, t)
    ensures ToTry(v, tab, i, prepares, t)
  {
    hide Base;
    ObservedBase(w.p.mem, v.p.mem, tab, t);
  }

  /** One try: the message is dispatched with one attempt more, and then waits, ready to be tried again, or after
      the last one is failed; it reaches no provider, and nothing else changes. */
  lemma OneTry(w: World, u: World, v: World, tab: string, i: nat, prepares: bool, t: Target, f: Failure)
    requires ToTry(w, tab, i, prepares, t) && Tried(w, u, v, tab, prepares, t, f)
    requires Transient(f, w.p.mem.messages[i].scheduled)
    ensures i < |u.p.mem.messages| == |v.p.mem.messages|
    ensures var e, d, g := w.p.mem.messages[i], u.p.mem.messages[i], v.p.mem.messages[i];
            && d.state.Dispatching? && d.attempts == g.attempts == e.attempts + 1 && g.scheduled == e.scheduled
            && v.contacts == w.contacts && v.p.mem.messages == w.p.mem.messages[i := g]
            && (if e.attempts + 1 < Tries(e.scheduled) then
                  g.state.Waiting? && g.waitingReason == WaitingForRuntime && ToTry(v, tab, i, prepares, t)
                else g.state.Failed? && g.error == RuntimeUnavailable)
  {
    hide Goes, ToTry, Observed;
    var a, b :| Goes(w, u, PumpRuns(tab, prepares, t, SaveOk, SaveOk), a) && Goes(u, v, SubmitFails(tab, f, SaveOk), b);
    Sends(w, u, tab, i, prepares, t, a);
    Fails(w, u, v, tab, i, prepares, t, f, b);
    if v.p.mem.messages[i].state.Waiting? { StillToTry(w, v, tab, i, prepares, t); }
  }

  /** A stretch of a run in which a pump and a failure alternate. */
  ghost predicate Trials(ws: seq<World>, n: nat, tab: string, prepares: bool, t: Target, fs: seq<Failure>) {
    && n + 2 * |fs| < |ws|
    && forall k {:trigger fs[k]} | 0 <= k < |fs| ::
         Tried(ws[n + 2 * k], ws[n + 2 * k + 1], ws[n + 2 * k + 2], tab, prepares, t, fs[k])
  }

  /** In any run: as long as the `submit`s of a message raise errors that say nothing about it, it is tried again,
      waits after each of the first eleven tries, and is failed by the twelfth, or if it is scheduled waits after
      the first twelve and is failed by the thirteenth. */
  lemma {:induction false} TriedTwelveTimes(ws: seq<World>, n: nat, tab: string, i: nat, prepares: bool, t: Target,
                                            fs: seq<Failure>, k: nat)
    requires Trials(ws, n, tab, prepares, t, fs) && ToTry(ws[n], tab, i, prepares, t)
    requires var e := ws[n].p.mem.messages[i];
             e.attempts == 0 && |fs| <= Tries(e.scheduled) && forall f | f in fs :: Transient(f, e.scheduled)
    requires k < |fs|
    ensures i < |ws[n + 2 * k + 1].p.mem.messages| && i < |ws[n + 2 * k + 2].p.mem.messages|
    ensures var e, d, g := ws[n].p.mem.messages[i], ws[n + 2 * k + 1].p.mem.messages[i],
                           ws[n + 2 * k + 2].p.mem.messages[i];
            && d.state.Dispatching? && d.attempts == g.attempts == k + 1 && g.scheduled == e.scheduled
            && ws[n + 2 * k + 2].contacts == ws[n].contacts
            && (if k + 1 < Tries(e.scheduled) then
                  && g.state.Waiting? && g.waitingReason == WaitingForRuntime
                  && ToTry(ws[n + 2 * k + 2], tab, i, prepares, t)
                else g.state.Failed? && g.error == RuntimeUnavailable)
  {
    hide ToTry, Tried;
    if k > 0 { TriedTwelveTimes(ws, n, tab, i, prepares, t, fs, k - 1); }
    assert fs[k] in fs;
    HeadThere(ws[n + 2 * k], tab, i, prepares, t);
    OneTry(ws[n + 2 * k], ws[n + 2 * k + 1], ws[n + 2 * k + 2], tab, i, prepares, t, fs[k]);
  }

  lemma HeadThere(w: World, tab: string, i: nat, prepares: bool, t: Target)
    requires ToTry(w, tab, i, prepares, t)
    ensures i < |w.p.mem.messages|
  {
  }

  /** And wherever a run has led, it can go on so, with any such errors. */
  lemma {:induction false} CanBeTried(ws: seq<World>, tab: string, i: nat, prepares: bool, t: Target, fs: seq<Failure>)
      returns (us: seq<World>)
    requires Run(ws) && ToTry(Last(ws), tab, i, prepares, t)
    requires var e := Last(ws).p.mem.messages[i];
             e.attempts == 0 && |fs| <= Tries(e.scheduled) && forall f | f in fs :: Transient(f, e.scheduled)
    ensures 0 < |ws| && Run(us) && |us| == |ws| + 2 * |fs| && us[..|ws|] == ws
    ensures Trials(us, |ws| - 1, tab, prepares, t, fs)
  {
    hide Run, Goes, Next, ToTry, Typed;
    HasWorlds(ws);
    us := ws;
    if fs != [] {
      var n, init, last := |fs| - 1, fs[..|fs| - 1], fs[|fs| - 1];
      var mid := CanBeTried(ws, tab, i, prepares, t, init);
      if n > 0 { TriedTwelveTimes(mid, |ws| - 1, tab, i, prepares, t, init, n - 1); }
      assert mid[|ws| - 1] == ws[|ws| - 1];
      us := TryOnce(mid, tab, i, prepares, t, last);
      forall k | 0 <= k < |fs|
        ensures Tried(us[|ws| - 1 + 2 * k], us[|ws| + 2 * k], us[|ws| + 2 * k + 1], tab, prepares, t, fs[k])
      {
        if k < n {
          assert init[k] == fs[k];
          assert us[..|mid|] == mid;
        }
      }
    }
  }

  lemma TryOnce(ws: seq<World>, tab: string, i: nat, prepares: bool, t: Target, f: Failure) returns (us: seq<World>)
    requires Run(ws) && ToTry(Last(ws), tab, i, prepares, t)
    ensures 0 < |ws| && Run(us) && |us| == |ws| + 2 && us[..|ws|] == ws
    ensures Tried(Last(ws), us[|ws|], us[|ws| + 1], tab, prepares, t, f)
  {
    hide Run, Goes, Next, Typed, Trying;
    HasWorlds(ws);
    var a := Last(ws).clock + 1;
    var mid := GoOn(ws, PumpRuns(tab, prepares, t, SaveOk, SaveOk), a);
    Sends(Last(ws), Last(mid), tab, i, prepares, t, a);
    SubmitCanFail(Last(ws), Last(mid), tab, i, t, f);
    us := GoOn(mid, SubmitFails(tab, f, SaveOk), Last(mid).clock + 1);
    assert us[..|ws|] == us[..|mid|][..|ws|] && us[|ws|] == us[..|mid|][|ws|];
  }

  lemma SubmitCanFail(w: World, u: World, tab: string, i: nat, t: Target, f: Failure)
    requires t.Found? && i < |w.p.mem.messages| && Trying(w, u, tab, i, t)
    ensures Enabled(u, SubmitFails(tab, f, SaveOk), u.clock + 1)
  {
  }
}
