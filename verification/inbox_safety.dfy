/** What every step of the inbox protocol keeps. */
module InboxSafety {
  import opened Options
  import opened ChatMessage
  import opened InboxStore
  import opened InboxEvolution
  import opened InboxOps
  import opened InboxMoves
  import opened InboxProtocol

  // ------------------------------------------------------------------ the invariant

  ghost predicate Stamps(s: Store, clock: int) {
    forall i {:trigger s.messages[i]} | 0 <= i < |s.messages| :: s.messages[i].updatedAt <= clock
  }

  /** Every message queued before the last one dispatched on its tab has stopped blocking. */
  ghost predicate Fence(s: Store, front: map<string, nat>) {
    forall i {:trigger s.messages[i]} | 0 <= i < |s.messages| ::
      var m := s.messages[i];
      m.kind.Message? && m.tab in front && i < front[m.tab] ==> !m.Blocks()
  }

  ghost predicate IsMessageOf(s: Store, i: nat, tab: string) {
    i < |s.messages| && s.messages[i].tab == tab && s.messages[i].kind.Message?
  }

  ghost predicate FrontOk(s: Store, front: map<string, nat>) {
    forall tab {:trigger front[tab]} | tab in front :: IsMessageOf(s, front[tab], tab)
  }

  ghost predicate Uncontacted(contacts: seq<Contact>, i: nat) {
    forall k {:trigger contacts[k]} | 0 <= k < |contacts| :: contacts[k].i != i
  }

  /** Nothing this inbox dispatched holds the tab, and nothing queued before `i` blocks it. */
  ghost predicate NextInLine(s: Store, i: nat, tab: string) {
    && IsMessageOf(s, i, tab)
    && !s.messages[i].adopted
    && (forall j {:trigger s.messages[j]} | 0 <= j < |s.messages| && s.messages[j].tab == tab ::
          !s.messages[j].HoldsTab())
    && (forall j {:trigger s.messages[j]} | 0 <= j < i && s.messages[j].tab == tab && s.messages[j].kind.Message? ::
          !s.messages[j].Blocks())
  }

  /** A scheduled message that is being prepared has not been dispatched, whatever else has become of it. */
  ghost predicate Prepared(s: Store, front: map<string, nat>, i: nat, tab: string) {
    && NextInLine(s, i, tab)
    && s.messages[i].scheduled && !s.messages[i].started && !s.messages[i].state.InFlight()
    && (tab in front ==> front[tab] <= i)
  }

  ghost predicate PumpOk(s: Store, front: map<string, nat>, contacts: seq<Contact>, tab: string, pump: Pump) {
    match pump
    case Prepares(i) => Prepared(s, front, i, tab)
    case Submits(i, phase) =>
      && tab in front && front[tab] == i && IsMessageOf(s, i, tab)
      && (!phase.Calling? ==> s.messages[i].started)
      && (!phase.Reached? ==> Uncontacted(contacts, i))
  }

  ghost predicate PumpsOk(s: Store, front: map<string, nat>, contacts: seq<Contact>, pumps: map<string, Pump>) {
    forall tab {:trigger pumps[tab]} | tab in pumps :: PumpOk(s, front, contacts, tab, pumps[tab])
  }

  ghost predicate AnswerOk(s: Store, contacts: seq<Contact>, i: nat, phase: Phase) {
    && i < |s.messages| && s.messages[i].kind.QuestionAnswer?
    && (!phase.Calling? ==> s.messages[i].started)
    && (!phase.Reached? ==> Uncontacted(contacts, i))
  }

  ghost predicate AnswersOk(s: Store, contacts: seq<Contact>, answers: map<nat, Phase>) {
    forall i {:trigger answers[i]} | i in answers :: AnswerOk(s, contacts, i, answers[i])
  }

  /** A contact was made by a durably started entry, not after the front of its tab. */
  ghost predicate ContactOk(s: Store, front: map<string, nat>, c: Contact) {
    && c.i < |s.messages|
    && s.messages[c.i].started && s.messages[c.i].kind == c.kind && s.messages[c.i].tab == c.tab
    && (c.kind.Message? ==> c.tab in front && c.i <= front[c.tab])
  }

  ghost predicate InOrder(c: Contact, d: Contact) {
    c.i != d.i && (c.kind.Message? && d.kind.Message? && c.tab == d.tab ==> c.i < d.i)
  }

  ghost predicate ContactsOk(s: Store, front: map<string, nat>, contacts: seq<Contact>) {
    && (forall k {:trigger contacts[k]} | 0 <= k < |contacts| :: ContactOk(s, front, contacts[k]))
    && (forall k, l {:trigger InOrder(contacts[k], contacts[l])} | 0 <= k < l < |contacts| ::
        InOrder(contacts[k], contacts[l]))
  }

  /** A sighting is of its entry's own incarnation and epoch, and the epoch still pins the conversation
      that was seen, if there was one, or is over. */
  ghost predicate SightOk(s: Store, g: Sighting) {
    && g.i < |s.messages|
    && s.messages[g.i].tab == g.key.0 && s.messages[g.i].incarnation == At(g.key.1, g.epoch)
    && g.epoch <= s.Epoch(g.key)
    && (g.conversation != "" && s.Epoch(g.key) == g.epoch ==> s.Pinned(g.key) == g.conversation)
  }

  /** A sighting of what the store pins now. */
  ghost predicate Current(s: Store, g: Sighting) {
    SightOk(s, g) && s.Epoch(g.key) == g.epoch && s.Pinned(g.key) == g.conversation
  }

  ghost predicate Agree(g: Sighting, h: Sighting) {
    && (g.key == h.key && g.epoch == h.epoch && g.conversation != "" && h.conversation != "" ==>
          g.conversation == h.conversation)
    && (g.i == h.i && !g.submitted && h.submitted && g.conversation != "" ==> h.conversation == g.conversation)
  }

  ghost predicate SightsAgree(sightings: set<Sighting>) {
    forall g, h {:trigger Agree(g, h)} | g in sightings && h in sightings :: Agree(g, h)
  }

  /** What a provider was reached for, or is about to be, was seen by the callback that let it through. */
  ghost predicate Submitted(sightings: set<Sighting>, i: nat) {
    exists g :: g in sightings && g.i == i && g.submitted
  }

  ghost predicate SubmissionsSeen(w: World) {
    && (forall k {:trigger w.contacts[k]} | 0 <= k < |w.contacts| && w.contacts[k].kind.Message? ::
          Submitted(w.sightings, w.contacts[k].i))
    && (forall tab {:trigger w.pumps[tab]} | tab in w.pumps && w.pumps[tab].Submits? && !w.pumps[tab].phase.Calling? ::
          Submitted(w.sightings, w.pumps[tab].i))
  }

  ghost predicate LookOk(s: Store, clock: int, r: Read) {
    && r.i < |s.messages| && s.messages[r.i].kind.Message?
    && r.seen.0.InFlight() && !(s.messages[r.i].scheduled && r.seen.0.Uncertain?)
    && r.seen.1 <= r.at <= clock
  }

  /** What refers to committed entries only, and so survives whatever the committed payload evolves into. */
  ghost predicate History(s: Store, w: World) {
    && FrontOk(s, w.front)
    && ContactsOk(s, w.front, w.contacts)
    && AnswersOk(s, w.contacts, w.answers)
    && (forall g {:trigger SightOk(s, g)} | g in w.sightings :: SightOk(s, g))
    && SightsAgree(w.sightings)
    && (forall id {:trigger Named(s.messages, id)} | id in w.acked :: Named(s.messages, id))
    && (forall r {:trigger w.looks[r]} | r in w.looks :: LookOk(s, w.clock, w.looks[r]))
  }

  ghost predicate Safe(w: World) {
    && Coherent(w.p)
    && Stamps(w.p.committed, w.clock) && Stamps(w.p.disk, w.clock)
    && Fence(w.p.committed, w.front) && Fence(w.p.disk, w.front)
    && History(w.p.committed, w)
    && PumpsOk(w.p.committed, w.front, w.contacts, w.pumps)
    && SubmissionsSeen(w)
  }

  // ------------------------------------------------------------------ carrying it along

  lemma EvolvesKeepsHistory(a: Store, b: Store, w: World)
    requires Evolves(a, b) && History(a, w)
    ensures History(b, w)
  {
    var ms, ns := a.messages, b.messages;
    forall i | 0 <= i < |ms| ensures Follows(ms[i], ns[i]) {}
    forall id | id in w.acked ensures Named(ns, id) {
      assert Named(ms, id);
      var i :| 0 <= i < |ms| && ms[i].id == id;
      assert Follows(ms[i], ns[i]);
    }
    forall g | g in w.sightings ensures SightOk(b, g) {
      assert SightOk(a, g) && Follows(ms[g.i], ns[g.i]) && PinFollows(a, b, g.key);
    }
    forall k | 0 <= k < |w.contacts| ensures ContactOk(b, w.front, w.contacts[k]) {
      assert ContactOk(a, w.front, w.contacts[k]);
      assert Follows(ms[w.contacts[k].i], ns[w.contacts[k].i]);
    }
    forall tab | tab in w.front ensures IsMessageOf(b, w.front[tab], tab) {
      assert IsMessageOf(a, w.front[tab], tab);
      assert Follows(ms[w.front[tab]], ns[w.front[tab]]);
    }
    forall i | i in w.answers ensures AnswerOk(b, w.contacts, i, w.answers[i]) {
      assert AnswerOk(a, w.contacts, i, w.answers[i]);
      assert Follows(ms[i], ns[i]);
    }
    forall r | r in w.looks ensures LookOk(b, w.clock, w.looks[r]) {
      assert LookOk(a, w.clock, w.looks[r]);
      assert Follows(ms[w.looks[r].i], ns[w.looks[r].i]);
    }
  }

  /** A store that agrees with another in all that lasts has the same stamps, fence and places in line. */
  lemma DurableKeeps(a: Store, b: Store, w: World)
    requires Ahead(a, b) && Stamps(a, w.clock) && Fence(a, w.front) && PumpsOk(a, w.front, w.contacts, w.pumps)
    ensures Stamps(b, w.clock) && Fence(b, w.front) && PumpsOk(b, w.front, w.contacts, w.pumps)
  {
    forall i | 0 <= i < |a.messages|
      ensures b.messages[i]
              == a.messages[i].(attempts := b.messages[i].attempts,
                                recoveryCheckedAt := b.messages[i].recoveryCheckedAt)
    {
      assert Durable(a.messages[i]) == Durable(b.messages[i]);
      DurableMeans(a.messages[i], b.messages[i]);
    }
    forall tab | tab in w.pumps ensures PumpOk(b, w.front, w.contacts, tab, w.pumps[tab]) {
      assert PumpOk(a, w.front, w.contacts, tab, w.pumps[tab]);
    }
  }

  /** The exempt entry is no earlier than the front of its tab, whose pump is not at work. */
  ghost predicate ExemptOk(s: Store, w: World, exempt: Option<nat>) {
    exempt.Some? && exempt.value < |s.messages| ==>
      var m := s.messages[exempt.value];
      m.kind.Message? && m.tab !in w.pumps && (m.tab in w.front ==> w.front[m.tab] <= exempt.value)
  }

  lemma LegalKeepsFence(a: Store, b: Store, w: World, now: int, exempt: Option<nat>)
    requires Legal(a, b, now, exempt) && Stamps(a, w.clock) && Fence(a, w.front) && w.clock <= now
    requires FrontOk(a, w.front) && ExemptOk(a, w, exempt)
    ensures Stamps(b, now) && Fence(b, w.front)
  {
    hide Inv;
    forall i | 0 <= i < |b.messages|
      ensures b.messages[i].updatedAt <= now
      ensures b.messages[i].kind.Message? && b.messages[i].tab in w.front && i < w.front[b.messages[i].tab] ==>
              !b.messages[i].Blocks()
    {
      if i < |a.messages| {
        assert Follows(a.messages[i], b.messages[i]);
        assert Steps(a.messages[i], b.messages[i], now, exempt == Some(i));
      } else if b.messages[i].tab in w.front {
        assert IsMessageOf(a, w.front[b.messages[i].tab], b.messages[i].tab);
      }
    }
  }

  /** What a legal mutation does to one entry of a tab whose pump is at work. */
  lemma LegalKeepsEntry(a: Store, b: Store, w: World, now: int, exempt: Option<nat>, tab: string, j: nat)
    requires Legal(a, b, now, exempt) && ExemptOk(a, w, exempt) && tab in w.pumps && j < |b.messages|
    ensures j < |a.messages| ==> Follows(a.messages[j], b.messages[j])
    ensures j < |a.messages| && a.messages[j].tab == tab && a.messages[j].kind.Message? ==>
              && (b.messages[j].Blocks() ==> a.messages[j].Blocks())
              && (b.messages[j].state.InFlight() ==> a.messages[j].state.InFlight())
              && (b.messages[j].started ==> a.messages[j].started || a.messages[j].state.Dispatching?)
    ensures b.messages[j].tab == tab && b.messages[j].HoldsTab() ==> j < |a.messages| && a.messages[j].HoldsTab()
  {
    hide Inv;
    if j < |a.messages| {
      assert Follows(a.messages[j], b.messages[j]);
      assert Steps(a.messages[j], b.messages[j], now, exempt == Some(j));
    }
  }

  lemma LegalKeepsPumps(a: Store, b: Store, w: World, now: int, exempt: Option<nat>)
    requires Legal(a, b, now, exempt) && PumpsOk(a, w.front, w.contacts, w.pumps) && ExemptOk(a, w, exempt)
    ensures PumpsOk(b, w.front, w.contacts, w.pumps)
  {
    hide Inv, AllStep, Evolves, Follows;
    forall tab | tab in w.pumps ensures PumpOk(b, w.front, w.contacts, tab, w.pumps[tab]) {
      assert PumpOk(a, w.front, w.contacts, tab, w.pumps[tab]);
      LegalKeepsPump(a, b, w, now, exempt, tab);
    }
  }

  lemma LegalKeepsPump(a: Store, b: Store, w: World, now: int, exempt: Option<nat>, tab: string)
    requires Legal(a, b, now, exempt) && tab in w.pumps && ExemptOk(a, w, exempt)
    requires PumpOk(a, w.front, w.contacts, tab, w.pumps[tab])
    ensures PumpOk(b, w.front, w.contacts, tab, w.pumps[tab])
  {
    hide Legal, ExemptOk;
    forall j | 0 <= j < |b.messages|
      ensures j < |a.messages| ==> Follows(a.messages[j], b.messages[j])
      ensures j < |a.messages| && a.messages[j].tab == tab && a.messages[j].kind.Message? ==>
                && (b.messages[j].Blocks() ==> a.messages[j].Blocks())
                && (b.messages[j].state.InFlight() ==> a.messages[j].state.InFlight())
                && (b.messages[j].started ==> a.messages[j].started || a.messages[j].state.Dispatching?)
      ensures b.messages[j].tab == tab && b.messages[j].HoldsTab() ==> j < |a.messages| && a.messages[j].HoldsTab()
    {
      LegalKeepsEntry(a, b, w, now, exempt, tab, j);
    }
    LegalIsLonger(a, b, now, exempt);
  }

  lemma LegalIsLonger(a: Store, b: Store, now: int, exempt: Option<nat>)
    requires Legal(a, b, now, exempt)
    ensures |a.messages| <= |b.messages|
  {
  }

  /** The world after a move of the process, with everything else as it was. */
  lemma MoveIsSafe(w: World, q: Proc, now: int, exempt: Option<nat>)
    requires Safe(w) && w.clock <= now && Move(w.p, q, now, exempt) && ExemptOk(w.p.committed, w, exempt)
    ensures Safe(Land(w, q, now)) && Onward(w.p, q, exempt, exempt)
  {
    hide Inv, Evolves, Remembers, KeepsRest, TakesUp, Legal, Ahead, History, PumpsOk, Fence, Stamps, Coherent, Save,
         FrontOk;
    MoveKeeps(w.p, q, now, exempt);
    EvolvesKeepsHistory(w.p.committed, q.committed, w);
    LaterHistory(q.committed, w, q, now);
    LaterStamps(w, now);
    if !Quiet(w.p, q) {
      var m, o :| Saves(w.p, m, q, now, exempt, o);
      SavedWorld(w, m, q, now, exempt, o);
    }
  }

  lemma LaterHistory(s: Store, w: World, q: Proc, now: int)
    requires History(s, w) && w.clock <= now
    ensures History(s, Land(w, q, now))
  {
    hide ContactsOk, AnswersOk, FrontOk, SightOk, Named;
  }

  lemma LaterStamps(w: World, now: int)
    requires Safe(w) && w.clock <= now
    ensures Stamps(w.p.committed, now) && Stamps(w.p.disk, now)
    ensures FrontOk(w.p.committed, w.front)
    ensures Fence(w.p.committed, w.front) && Fence(w.p.disk, w.front)
    ensures PumpsOk(w.p.committed, w.front, w.contacts, w.pumps)
  {
    hide Coherent, Fence, PumpsOk, ContactsOk, AnswersOk, FrontOk, SightOk, Named;
  }

  lemma SavedWorld(w: World, m: Store, q: Proc, now: int, exempt: Option<nat>, o: Saving)
    requires Safe(w) && w.clock <= now && Saves(w.p, m, q, now, exempt, o) && ExemptOk(w.p.committed, w, exempt)
    ensures Stamps(q.committed, now) && Stamps(q.disk, now) && Fence(q.committed, w.front) && Fence(q.disk, w.front)
    ensures PumpsOk(q.committed, w.front, w.contacts, w.pumps)
  {
    hide Inv, Evolves, Remembers, KeepsRest, TakesUp, Legal, PumpsOk, Fence, Stamps, Save, FrontOk, Restore;
    LaterStamps(w, now);
    var a := w.p.mem;
    SafeParts(w);
    DurableKeeps(w.p.committed, a, w);
    MemFront(w);
    MemExempt(w, exempt);
    LegalKeepsFence(a, m, w, now, exempt);
    LegalKeepsPumps(a, m, w, now, exempt);
    SaveOutcome(w.p.(mem := m), o);
  }

  lemma SafeParts(w: World)
    requires Safe(w)
    ensures Inv(w.p.committed) && Ahead(w.p.committed, w.p.mem)
    ensures Stamps(w.p.committed, w.clock) && Fence(w.p.committed, w.front)
            && PumpsOk(w.p.committed, w.front, w.contacts, w.pumps)
  {
  }

  lemma MemFront(w: World)
    requires Safe(w)
    ensures FrontOk(w.p.mem, w.front)
  {
    MemHistory(w);
  }

  /** What history says of the committed payload it says of the memory too. */
  lemma MemHistory(w: World)
    requires Safe(w)
    ensures History(w.p.mem, w)
  {
    MemInv(w.p);
    EvolvesKeepsHistory(w.p.committed, w.p.mem, w);
  }

  lemma MemExempt(w: World, exempt: Option<nat>)
    requires Safe(w) && ExemptOk(w.p.committed, w, exempt)
    ensures ExemptOk(w.p.mem, w, exempt)
  {
    if exempt.Some? && exempt.value < |w.p.mem.messages| {
      var i := exempt.value;
      assert Durable(w.p.committed.messages[i]) == Durable(w.p.mem.messages[i]);
      DurableMeans(w.p.committed.messages[i], w.p.mem.messages[i]);
    }
  }

  lemma MovesAreSafe(w: World, q: Proc, now: int, exempt: Option<nat>)
    requires Safe(w) && w.clock <= now && Moves(w.p, q, now, exempt) && ExemptOk(w.p.committed, w, exempt)
    requires exempt.Some? ==> exempt.value < |w.p.committed.messages|
    ensures Safe(Land(w, q, now)) && Onward(w.p, q, exempt, exempt)
  {
    hide Inv, Evolves, Remembers, KeepsRest, TakesUp, Legal, Ahead, History, PumpsOk, Fence, Stamps, Coherent, Save,
         FrontOk, Move, Safe;
    var r, s :| Move(w.p, r, now, exempt) && Move(r, s, now, exempt) && Move(s, q, now, exempt);
    MoveIsSafe(w, r, now, exempt);
    CarryExempt(w.p.committed, r.committed, w, exempt);
    MoveIsSafe(Land(w, r, now), s, now, exempt);
    CarryExempt(r.committed, s.committed, w, exempt);
    MoveIsSafe(Land(w, s, now), q, now, exempt);
    OnwardTrans(w.p, r, s, exempt, exempt);
    OnwardTrans(w.p, s, q, exempt, exempt);
  }

  lemma CarryExempt(a: Store, b: Store, w: World, exempt: Option<nat>)
    requires Evolves(a, b) && ExemptOk(a, w, exempt) && (exempt.Some? ==> exempt.value < |a.messages|)
    ensures ExemptOk(b, w, exempt) && (exempt.Some? ==> exempt.value < |b.messages|)
  {
    if exempt.Some? { assert Follows(a.messages[exempt.value], b.messages[exempt.value]); }
  }
}
