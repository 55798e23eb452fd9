/** What holds over whole runs of the inbox protocol. */
module InboxRuns {
  import opened Options
  import opened ChatMessage
  import opened InboxStore
  import opened InboxEvolution
  import opened InboxOps
  import opened InboxMoves
  import opened InboxProtocol
  import opened InboxSafety
  import opened InboxSteps

  /** A first process that has just read a file some earlier history left, with the logs still empty. */
  ghost predicate Starts(w: World) {
    && w.p == Proc(w.p.disk, w.p.disk, w.p.disk, false)
    && Inv(w.p.disk) && Stamps(w.p.disk, w.clock)
    && w.pumps == map[] && w.answers == map[] && w.looks == map[] && w.front == map[]
    && w.contacts == [] && w.sightings == {} && w.acked == {} && !w.up
  }

  ghost predicate Goes(w: World, v: World, s: Step, now: int) {
    Typed(w) && Enabled(w, s, now) && v == Next(w, s, now)
  }

  ghost predicate Leads(w: World, v: World) {
    exists s, now :: Goes(w, v, s, now)
  }

  ghost predicate Linked(ws: seq<World>, k: nat)
    requires 0 < k < |ws|
  {
    Leads(ws[k - 1], ws[k])
  }

  ghost predicate Run(ws: seq<World>) {
    && |ws| > 0
    && Starts(ws[0])
    && (forall k {:trigger Linked(ws, k)} | 0 < k < |ws| :: Linked(ws, k))
  }

  lemma StartIsSafe(w: World)
    requires Starts(w)
    ensures Safe(w)
  {
    EvolvesSelf(w.p.disk);
    AheadSelf(w.p.disk);
  }

  lemma {:induction false} RunIsSafe(ws: seq<World>, k: nat)
    requires Run(ws) && k < |ws|
    ensures Safe(ws[k])
  {
    hide Safe, Next, Enabled, Starts;
    if k == 0 {
      StartIsSafe(ws[0]);
    } else {
      RunIsSafe(ws, k - 1);
      assert Linked(ws, k);
      var s, now :| Goes(ws[k - 1], ws[k], s, now);
      StepIsSafe(ws[k - 1], s, now);
    }
  }

  /** In every world of a run the tasks refer to entries that exist, so any step that can happen goes on
      from there. */
  lemma RunIsTyped(ws: seq<World>, k: nat)
    requires Run(ws) && k < |ws|
    ensures Typed(ws[k])
  {
    hide Safe, Run, Typed;
    RunIsSafe(ws, k);
    SafeIsTyped(ws[k]);
  }

  lemma RunGoesOn(ws: seq<World>, s: Step, now: int)
    requires Run(ws) && Enabled(ws[|ws| - 1], s, now)
    ensures Typed(ws[|ws| - 1]) && Run(ws + [Next(ws[|ws| - 1], s, now)])
  {
    hide Next, Enabled, Starts, Typed;
    RunIsTyped(ws, |ws| - 1);
    var w, vs := ws[|ws| - 1], ws + [Next(ws[|ws| - 1], s, now)];
    assert Goes(w, vs[|ws|], s, now);
    forall k | 0 < k < |vs| ensures Linked(vs, k) {
      if k < |ws| {
        assert Linked(ws, k) && vs[k - 1] == ws[k - 1] && vs[k] == ws[k];
      } else {
        assert vs[k - 1] == w;
      }
    }
  }

  function Last(ws: seq<World>): World
    requires |ws| > 0
  {
    ws[|ws| - 1]
  }

  /** `us` is the run `ws` and the step `s` after it. */
  ghost predicate Longer(ws: seq<World>, us: seq<World>, s: Step, now: int) {
    && 0 < |ws| == |us| - 1 && Run(us) && us[..|ws|] == ws
    && Goes(Last(ws), Last(us), s, now)
  }

  lemma HasWorlds(ws: seq<World>)
    requires Run(ws)
    ensures |ws| > 0
  {
  }

  lemma GoOn(ws: seq<World>, s: Step, now: int) returns (us: seq<World>)
    requires Run(ws) && Enabled(Last(ws), s, now)
    ensures Typed(Last(ws)) && Longer(ws, us, s, now) && Last(us) == Next(Last(ws), s, now)
    ensures OfPumps(s) ==> Last(us) == PumpNext(Last(ws), s, now)
    ensures OfReads(s) ==> Last(us) == ReadNext(Last(ws), s, now)
    ensures Surrounding(s) ==> Last(us) == Around(Last(ws), s, now)
  {
    hide Next, Enabled, Typed, Starts, Linked;
    RunGoesOn(ws, s, now);
    us := ws + [Next(Last(ws), s, now)];
    NextIs(Last(ws), s, now);
  }

  /** Nothing committed is ever taken back, by failing saves, crashes or resets. */
  lemma {:induction false} CommittedOnlyEvolves(ws: seq<World>, i: nat, j: nat)
    requires Run(ws) && i <= j < |ws|
    ensures Evolves(ws[i].p.committed, ws[j].p.committed)
    decreases j - i
  {
    hide Safe, Next, Enabled, Starts, Evolves;
    if i == j {
      EvolvesSelf(ws[i].p.committed);
    } else {
      CommittedOnlyEvolves(ws, i, j - 1);
      RunIsSafe(ws, j - 1);
      assert Linked(ws, j);
      var s, now :| Goes(ws[j - 1], ws[j], s, now);
      StepIsSafe(ws[j - 1], s, now);
      EvolvesTrans(ws[i].p.committed, ws[j - 1].p.committed, ws[j].p.committed);
    }
  }

  /** The memory and the file follow everything that was ever committed. */
  lemma EverythingFollows(ws: seq<World>, i: nat, j: nat)
    requires Run(ws) && i <= j < |ws|
    ensures Evolves(ws[i].p.committed, ws[j].p.committed)
    ensures Evolves(ws[i].p.committed, ws[j].p.mem)
    ensures Evolves(ws[i].p.committed, ws[j].p.disk)
  {
    CommittedOnlyEvolves(ws, i, j);
    RunIsSafe(ws, j);
    MemInv(ws[j].p);
    EvolvesTrans(ws[i].p.committed, ws[j].p.committed, ws[j].p.mem);
    EvolvesTrans(ws[i].p.committed, ws[j].p.committed, ws[j].p.disk);
  }

  // ------------------------------------------------------------------ submission

  /** Over any run no envelope reaches its provider twice, and on each tab messages reach it in
      strictly increasing sequence. */
  lemma SubmittedOnceInOrder(ws: seq<World>, k: nat, a: nat, b: nat)
    requires Run(ws) && k < |ws| && a < b < |ws[k].contacts|
    ensures var s, c, d := ws[k].p.committed, ws[k].contacts[a], ws[k].contacts[b];
            && c.i < |s.messages| && d.i < |s.messages|
            && s.messages[c.i].id != s.messages[d.i].id
            && (c.kind.Message? && d.kind.Message? && c.tab == d.tab ==>
                  s.messages[c.i].sequence < s.messages[d.i].sequence)
  {
    RunIsSafe(ws, k);
    var s, c, d := ws[k].p.committed, ws[k].contacts[a], ws[k].contacts[b];
    assert ContactOk(s, ws[k].front, c) && ContactOk(s, ws[k].front, d) && InOrder(c, d);
    if c.i < d.i { assert Compatible(s.messages[c.i], s.messages[d.i]); }
  }

  /** When a provider is reached, the mark that submission started is already in the file, in the
      committed payload and in the memory, and the envelope had not been contacted before. */
  lemma MarkedBeforeProvider(w: World, tab: string, now: int)
    requires Safe(w) && Typed(w) && Enabled(w, ReachProvider(tab), now)
    ensures var i := w.pumps[tab].i;
            && i < |w.p.committed.messages| && i < |w.p.disk.messages|
            && w.p.disk.messages[i].started && w.p.committed.messages[i].started && w.p.mem.messages[i].started
            && Uncontacted(w.contacts, i)
  {
    Submitting(w, tab);
    var i := w.pumps[tab].i;
    assert Follows(w.p.committed.messages[i], w.p.disk.messages[i]);
  }

  lemma AnswerMarkedBeforeProvider(w: World, i: nat, now: int)
    requires Safe(w) && Typed(w) && Enabled(w, AnswerReaches(i), now)
    ensures && i < |w.p.committed.messages| && i < |w.p.disk.messages|
            && w.p.disk.messages[i].started && w.p.committed.messages[i].started
            && Uncontacted(w.contacts, i)
  {
    Answering(w, i);
    assert Follows(w.p.committed.messages[i], w.p.disk.messages[i]);
  }

  /** A started envelope stays started and never returns to queued or waiting, nor to dispatching once
      it has left it; a terminal message stays as it is, but that a scheduled one that was never submitted may
      come to be failed.  This holds in memory and in the file. */
  lemma ProgressIsNeverLost(ws: seq<World>, i: nat, j: nat, n: nat)
    requires Run(ws) && i <= j < |ws| && n < |ws[i].p.committed.messages|
    ensures n < |ws[j].p.mem.messages| && n < |ws[j].p.disk.messages|
    ensures var e := ws[i].p.committed.messages[n];
            forall f | f == ws[j].p.mem.messages[n] || f == ws[j].p.disk.messages[n] ::
              && SameIdentity(e, f)
              && (e.started ==> f.started && !f.state.Unsent() && (!e.state.Dispatching? ==> !f.state.Dispatching?))
              && (e.kind.Message? && e.state.Terminal() ==>
                    f.started == e.started && (f.state == e.state || (f.state.Failed? && e.scheduled && !e.started)))
  {
    EverythingFollows(ws, i, j);
    RunIsSafe(ws, i);
    RunIsSafe(ws, j);
    MemInv(ws[j].p);
    assert Sound(ws[i].p.committed.messages[n]);
    assert Sound(ws[j].p.mem.messages[n]) && Sound(ws[j].p.disk.messages[n]);
    assert Follows(ws[i].p.committed.messages[n], ws[j].p.mem.messages[n]);
    assert Follows(ws[i].p.committed.messages[n], ws[j].p.disk.messages[n]);
  }

  /** At any time, in memory and in the file, at most one message that this inbox dispatched is under way on
      a tab: of two that are, one has been in flight since a scheduler admitted it so. */
  lemma OneHolderPerTab(ws: seq<World>, k: nat, s: Store, a: nat, b: nat)
    requires Run(ws) && k < |ws| && (s == ws[k].p.mem || s == ws[k].p.committed || s == ws[k].p.disk)
    requires a < b < |s.messages| && s.messages[a].tab == s.messages[b].tab
    ensures !(s.messages[a].HoldsTab() && s.messages[b].HoldsTab())
    ensures s.messages[a].Underway() && s.messages[b].Underway() ==> s.messages[a].adopted || s.messages[b].adopted
  {
    RunIsSafe(ws, k);
    MemInv(ws[k].p);
    assert Compatible(s.messages[a], s.messages[b]);
  }

  lemma AdmitLands(w: World, item: Envelope, now: int)
    requires Typed(w) && Enabled(w, Admit(item, NoTarget(0, ""), false, Limits(0, 0), SaveOk), now)
    requires !w.p.closing && Fresh(w, item.id)
    ensures var m := Append(w.p.mem, item.(incarnation := Unset, sequence := MaxSequence(w.p.mem.messages) + 1));
            Next(w, Admit(item, NoTarget(0, ""), false, Limits(0, 0), SaveOk), now).p == Proc(m, m, m, false)
  {
    hide First, MaxSequence, CountBlocking, Admissible;
  }

  lemma StillFresh(ms: seq<Envelope>, e: Envelope, id: string)
    requires First(ms, ById(id)) == |ms| && e.id != id
    ensures First(ms + [e], ById(id)) == |ms + [e]|
  {
    var r := First(ms + [e], ById(id));
    assert forall j | 0 <= j < |ms| :: !ById(id).Hit(ms[j]) && (ms + [e])[j] == ms[j];
  }

  /** The bound is exact in that: wherever a run has led, a scheduler can admit two messages in flight that
      are then under way on one tab together. */
  lemma AdmittedSideBySide(ws: seq<World>, x: Envelope, y: Envelope, now: int) returns (vs: seq<World>)
    requires Run(ws) && !ws[|ws| - 1].p.closing && now > ws[|ws| - 1].clock
    requires Admissible(x, now) && Admissible(y, now) && x.state.Accepted? && y.state.Accepted?
    requires x.tab == y.tab && x.id != y.id && Fresh(ws[|ws| - 1], x.id) && Fresh(ws[|ws| - 1], y.id)
    ensures Run(vs) && |vs| == |ws| + 2 && vs[..|ws|] == ws
    ensures var ms, n := vs[|ws| + 1].p.mem.messages, |ws[|ws| - 1].p.mem.messages|;
            && |ms| == n + 2 && ms[n].id == x.id && ms[n + 1].id == y.id && ms[n].tab == ms[n + 1].tab == x.tab
            && ms[n].Underway() && ms[n + 1].Underway()
  {
    hide Next, Safe, First, MaxSequence, Starts, Linked;
    var w, t, limits := ws[|ws| - 1], NoTarget(0, ""), Limits(0, 0);
    var s1, s2 := Admit(x, t, false, limits, SaveOk), Admit(y, t, false, limits, SaveOk);
    RunGoesOn(ws, s1, now);
    AdmitLands(w, x, now);
    var v := Next(w, s1, now);
    StillFresh(w.p.mem.messages, v.p.mem.messages[|w.p.mem.messages|], y.id);
    var us := ws + [v];
    AdmissibleLater(y, now);
    RunGoesOn(us, s2, now + 1);
    AdmitLands(v, y, now + 1);
    vs := us + [Next(v, s2, now + 1)];
  }

  lemma AdmissibleLater(item: Envelope, now: int)
    requires Admissible(item, now)
    ensures Admissible(item, now + 1)
  {
  }

  /** A tab is fenced by whatever is in flight on it, a direct uncertain message included; a scheduled
      uncertain one does not block, so it fences nothing. */
  lemma InFlightFencesTab(p: Proc, tab: string, j: nat, prepares: bool, t: Target, now: int, bind: Saving, o: Saving)
    requires j < |p.mem.messages| && p.mem.messages[j].tab == tab && p.mem.messages[j].kind.Message?
    ensures p.mem.messages[j].state.InFlight()
            && (p.mem.messages[j].state.Uncertain? ==> !p.mem.messages[j].scheduled) ==>
              PumpTurn(p, tab, prepares, t, now, bind, o) == (p, Idle)
    ensures p.mem.messages[j].scheduled && p.mem.messages[j].state.Uncertain? ==>
              !p.mem.messages[j].Blocks() && Pick(p.mem.messages, tab) != Some(j)
  {
    if p.mem.messages[j].Blocks() && p.mem.messages[j].state.InFlight() {
      assert HeadOf(tab).Hit(p.mem.messages[j]);
    }
  }

  // ------------------------------------------------------------------ incarnations

  /** Admissions and submissions within one incarnation and epoch never saw two different conversations,
      whatever the tab's conversation did in between and whatever epochs a crash forgot. */
  lemma OneConversationPerEpoch(ws: seq<World>, k: nat, g: Sighting, h: Sighting)
    requires Run(ws) && k < |ws| && g in ws[k].sightings && h in ws[k].sightings
    requires g.key == h.key && g.epoch == h.epoch && g.conversation != "" && h.conversation != ""
    ensures g.conversation == h.conversation
  {
    RunIsSafe(ws, k);
    assert Agree(g, h);
  }

  /** What is seen of one envelope, at its admission and at its submission, is of one incarnation and epoch;
      and if the admission saw a conversation, the submission saw that one. */
  lemma SubmittedWhereAdmitted(ws: seq<World>, k: nat, g: Sighting, h: Sighting)
    requires Run(ws) && k < |ws| && g in ws[k].sightings && h in ws[k].sightings && g.i == h.i
    ensures g.key == h.key && g.epoch == h.epoch
    ensures !g.submitted && h.submitted && g.conversation != "" ==> h.conversation == g.conversation
  {
    RunIsSafe(ws, k);
    assert SightOk(ws[k].p.committed, g) && SightOk(ws[k].p.committed, h);
    assert Agree(g, h);
  }

  /** Over any run every message that reached a provider was let through by a callback that saw the
      message's own incarnation and epoch on its tab. */
  lemma SubmittedInOwnEpoch(ws: seq<World>, k: nat, a: nat)
    requires Run(ws) && k < |ws| && a < |ws[k].contacts| && ws[k].contacts[a].kind.Message?
    ensures var c, s := ws[k].contacts[a], ws[k].p.committed;
            && c.i < |s.messages|
            && exists g :: g in ws[k].sightings && g.submitted && g.i == c.i && g.key.0 == c.tab
                           && s.messages[c.i].incarnation == At(g.key.1, g.epoch)
  {
    RunIsSafe(ws, k);
    var c, s := ws[k].contacts[a], ws[k].p.committed;
    assert ContactOk(s, ws[k].front, c) && Submitted(ws[k].sightings, c.i);
    var g :| g in ws[k].sightings && g.i == c.i && g.submitted;
    assert SightOk(s, g);
  }

  /** What a callback that lets a submission through has seen, and saved. */
  lemma CallbackPins(p: Proc, i: nat, t: Target, o: Saving)
    requires i < |p.mem.messages| && p.mem.messages[i].kind.Message? && BeforeDelivery(p, i, t, o).1
    ensures t.Found? && t.waitingReason == ""
    ensures var e, q := p.mem.messages[i], BeforeDelivery(p, i, t, o).0;
            && e.incarnation == At(t.base, q.mem.Epoch((e.tab, t.base)))
            && q.disk.Pinned((e.tab, t.base)) == t.conversation
  {
    if t.Found? {
      ResolvePins(p.mem, p.mem.messages[i].tab, t);
    }
  }

  /** In one process, as long as no save has failed, each incarnation and epoch is observed with at most
      one conversation: what was seen stays pinned until the epoch is over. */
  lemma {:induction false} ObservedOncePerEpoch(ws: seq<World>, i: nat, j: nat, key: Key)
    requires Run(ws) && i <= j < |ws| && ws[i].resets == ws[j].resets && !ws[j].p.closing
    ensures ws[i].p.mem.Epoch(key) <= ws[j].p.mem.Epoch(key)
    ensures ws[i].p.mem.Epoch(key) == ws[j].p.mem.Epoch(key) && ws[i].p.mem.Pinned(key) != "" ==>
              ws[j].p.mem.Pinned(key) == ws[i].p.mem.Pinned(key)
  {
    hide Run;
    MemoryFollows(ws, i, j);
    assert PinFollows(ws[i].p.mem, ws[j].p.mem, key);
  }

  lemma {:induction false} MemoryFollows(ws: seq<World>, i: nat, j: nat)
    requires Run(ws) && i <= j < |ws|
    ensures ws[i].resets <= ws[j].resets
    ensures ws[i].resets == ws[j].resets ==> Remembers(ws[i].p, ws[j].p)
    decreases j - i
  {
    hide Safe, Next, Enabled, Starts, Evolves, Remembers, Typed;
    if i == j {
      OnwardSelf(ws[i].p, None, None);
    } else {
      MemoryFollows(ws, i, j - 1);
      RunIsSafe(ws, j - 1);
      assert Linked(ws, j);
      var s, now :| Goes(ws[j - 1], ws[j], s, now);
      StepIsSafe(ws[j - 1], s, now);
      if ws[i].resets == ws[j].resets { RemembersTrans(ws[i].p, ws[j - 1].p, ws[j].p); }
    }
  }

  // ------------------------------------------------------------------ the store

  /** Every state of every run dumps to a payload that is read back as that state. */
  lemma EveryStateRestores(ws: seq<World>, k: nat)
    requires Run(ws) && k < |ws|
    ensures Restore(Dump(ws[k].p.mem)) == Loaded(ws[k].p.mem)
    ensures Restore(Dump(ws[k].p.committed)) == Loaded(ws[k].p.committed)
    ensures Restore(Dump(ws[k].p.disk)) == Loaded(ws[k].p.disk)
  {
    RunIsSafe(ws, k);
    MemInv(ws[k].p);
    RestoreAcceptsExactlyWellFormed(ws[k].p.mem);
    RestoreAcceptsExactlyWellFormed(ws[k].p.committed);
    RestoreAcceptsExactlyWellFormed(ws[k].p.disk);
  }

  /** An acknowledged identifier stays in the memory and in every file a crash could leave. */
  lemma {:induction false} AcknowledgedForEver(ws: seq<World>, i: nat, j: nat, id: string)
    requires Run(ws) && i <= j < |ws| && id in ws[i].acked
    ensures id in ws[j].acked && Named(ws[j].p.mem.messages, id) && Named(ws[j].p.disk.messages, id)
  {
    RunIsSafe(ws, i);
    EverythingFollows(ws, i, j);
    assert Named(ws[i].p.committed.messages, id);
    var n :| 0 <= n < |ws[i].p.committed.messages| && ws[i].p.committed.messages[n].id == id;
    assert Follows(ws[i].p.committed.messages[n], ws[j].p.mem.messages[n]);
    assert Follows(ws[i].p.committed.messages[n], ws[j].p.disk.messages[n]);
    AcksGrow(ws, i, j);
  }

  lemma {:induction false} AcksGrow(ws: seq<World>, i: nat, j: nat)
    requires Run(ws) && i <= j < |ws|
    ensures ws[i].acked <= ws[j].acked
    decreases j - i
  {
    hide Next, Enabled, Starts, Typed;
    if i < j {
      AcksGrow(ws, i, j - 1);
      assert Linked(ws, j);
      var s, now :| Goes(ws[j - 1], ws[j], s, now);
    }
  }

  /** After a save fails the memory is the last committed payload, the file holds that payload, what it
      held before, or the attempted one, and the inbox is closing. */
  lemma FailedSave(p: Proc, m: Store, now: int, exempt: Option<nat>, o: Saving)
    requires Coherent(p) && Legal(p.mem, m, now, exempt) && !o.SaveOk?
    ensures var q := Save(p.(mem := m), o);
            && q.closing && q.mem == p.committed && q.committed == p.committed
            && q.disk == (if o.FailsAfterReplace? then m else p.disk)
            && Evolves(q.committed, q.disk) && Inv(q.disk)
  {
    SaveOutcome(p.(mem := m), o);
    MemInv(p);
    EvolvesTrans(p.committed, p.mem, m);
  }
}
