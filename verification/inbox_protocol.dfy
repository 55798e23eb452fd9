/** The inbox as a protocol: every interleaving of its operations, of the providers' answers, of failing
    saves and of crashes.  One step is the code between two suspension points.

    What is assumed of the surroundings: `submit` reaches the provider at most once, only after its
    callback has returned and before `submit` itself ends, and calls the callback again only if it was
    refused; clock readings strictly increase; identifiers are fresh; the `start` of a process ends at
    most once. */
module InboxProtocol {
  import opened Options
  import opened ChatMessage
  import opened InboxStore
  import opened InboxEvolution
  import opened InboxOps
  import opened InboxMoves

  /** A running `submit`: before its callback, after it, and after the provider was reached. */
  datatype Phase = Calling | Cleared | Reached

  datatype Pump = Prepares(i: nat) | Submits(i: nat, phase: Phase)

  /** One message or answer reaching its provider. */
  datatype Contact = Contact(i: nat, tab: string, kind: Kind)

  /** A saved admission or submission of entry `i`, and what was observed as it was made. */
  datatype Sighting = Sighting(i: nat, key: Key, epoch: nat, conversation: string, submitted: bool)

  /** A pending evidence read about entry `i`: what was observed, and when. */
  datatype Read = Read(i: nat, seen: (State, int), recovering: bool, at: int)

  datatype World = World(
    p: Proc, clock: int, recovery: set<nat>,
    pumps: map<string, Pump>, answers: map<nat, Phase>, looks: map<nat, Read>,
    front: map<string, nat>,          // history: the last message dispatched on each tab
    contacts: seq<Contact>,           // history: provider contacts, in order
    sightings: set<Sighting>,         // history
    acked: set<string>,               // history: identifiers a receipt was returned for
    up: bool,                         // has `start` come to its end in this process?
    resets: nat)                      // history: how often `_closing` was reset, by new processes or by `start`

  datatype Step =
    | Send(tab: string, principal: string, call: Call, id: string, t: Target, limits: Limits, o: Saving)
    | Admit(item: Envelope, t: Target, enforceLimit: bool, limits: Limits, o: Saving)
    | Withdraw(tab: string, id: string, principal: string, o: Saving)
    | WithdrawScheduled(id: string, release: bool, o: Saving)
    | TurnEnds(tab: string, turn: string, status: string, o: Saving)
    | PumpRuns(tab: string, prepares: bool, t: Target, bind: Saving, o: Saving)
    | PumpResumes(tab: string, reason: string, t: Target, bind: Saving, o: Saving)
    | PrepareFails(tab: string, text: string, o: Saving)
    | Callback(tab: string, t: Target, o: Saving)
    | ReachProvider(tab: string)
    | SubmitFails(tab: string, f: Failure, o: Saving)
    | SubmitReturns(tab: string, o: Saving)
    | PumpDies(tab: string)
    | AnswerBegins(i: nat, o: Saving)
    | AnswerCallback(i: nat, o: Saving)
    | AnswerReaches(i: nat)
    | AnswerEnds(i: nat, outcome: AnswerOutcome, o: Saving, o2: Saving)
    | AnswerDies(i: nat)
    | ReconcileBegins(restarting: bool)
    | ReadBegins(r: nat, i: nat, current: int)
    | ReadFails(r: nat)
    | ReadEnds(r: nat, proof: Proof, probe: Liveness, restarting: bool, o: Saving)
    | AnswerRecovered(i: nat, o: Saving, o2: Saving)
    | Expiry(o: Saving)
    | ClaimStep(ref: string, principal: string, answer: AnswerCall, callback: Option<(string, string)>, id: string,
      limits: Limits, o: Saving)
    | Observe(tab: string, t: Target)
    | Flush(o: Saving)
    | Nonces(nonces: map<string, NonceRecord>, saves: bool, o: Saving)
    | Ask(q: Question, o: Saving)
    | Settle(ref: string, state: QuestionState, o: Saving)
    | StartEnds
    | Stop
    | Crash

  function Acked(w: World, r: Reply): (acks: set<string>)
    ensures w.acked <= acks
  {
    if r.Receipt? then w.acked + {r.envelope.id} else w.acked
  }

  /** The sighting made when entry `i` is saved while `t` was observed. */
  function Saw(s: Store, i: nat, tab: string, t: Target, submitted: bool): set<Sighting> {
    if t.Found? then {Sighting(i, (tab, t.base), s.Epoch((tab, t.base)), t.conversation, submitted)} else {}
  }

  function ScheduledItem(w: World, item: Envelope, t: Target): (Store, Envelope) {
    if t.Found? then
      var m := Resolve(w.p.mem, item.tab, t);
      (m, item.(incarnation := Incarnate(m, item.tab, t)))
    else (w.p.mem, item.(incarnation := Unset))
  }

  // ------------------------------------------------------------------ when a step can happen

  predicate Fresh(w: World, id: string) { First(w.p.mem.messages, ById(id)) == |w.p.mem.messages| }

  ghost predicate Enabled(w: World, s: Step, now: int) {
    && now > w.clock
    && match s
       case Send(tab, principal, call, id, t, limits, o) => Fresh(w, id)
       case Admit(item, t, enforceLimit, limits, o) => Admissible(item, now)
       case PumpRuns(tab, prepares, t, bind, o) => tab !in w.pumps
       case PumpResumes(tab, reason, t, bind, o) => tab in w.pumps && w.pumps[tab].Prepares?
       case PrepareFails(tab, text, o) => tab in w.pumps && w.pumps[tab].Prepares?
       case Callback(tab, t, o) => tab in w.pumps && w.pumps[tab].Submits? && w.pumps[tab].phase.Calling?
       case ReachProvider(tab) => tab in w.pumps && w.pumps[tab].Submits? && w.pumps[tab].phase.Cleared?
       case SubmitFails(tab, f, o) => tab in w.pumps && w.pumps[tab].Submits?
       case SubmitReturns(tab, o) => tab in w.pumps && w.pumps[tab].Submits?
       case PumpDies(tab) => tab in w.pumps
       case AnswerBegins(i, o) => i < |w.p.mem.messages| && w.p.mem.messages[i].kind.QuestionAnswer? && i !in w.answers
       case AnswerCallback(i, o) => i in w.answers && w.answers[i].Calling? && i < |w.p.mem.messages|
       case AnswerReaches(i) => i in w.answers && w.answers[i].Cleared? && i < |w.p.mem.messages|
       case AnswerEnds(i, outcome, o, o2) => i in w.answers && i < |w.p.mem.messages|
       case AnswerDies(i) => i in w.answers
       case ReadBegins(r, i, current) =>
         r !in w.looks && i < |w.p.mem.messages| && ReadsEvidence(w.p.mem.messages[i], i in w.recovery, current)
       case ReadFails(r) => r in w.looks
       case ReadEnds(r, proof, probe, restarting, o) => r in w.looks && w.looks[r].i < |w.p.mem.messages|
       case AnswerRecovered(i, o, o2) => i < |w.p.mem.messages|
       case ClaimStep(ref, principal, answer, callback, id, limits, o) => Fresh(w, id)
       case Ask(q, o) =>
         q.state.Open? && q.answerId.None?
         && FirstQuestion(w.p.mem.questions, q.ref) == |w.p.mem.questions|
       case Nonces(nonces, saves, o) => NoncesIntact(nonces)
       case StartEnds => !w.up
       case Settle(ref, state, o) => state.Stale? || state.Resolved?
       case _ => true
  }

  // ------------------------------------------------------------------ what it does

  function Land(w: World, q: Proc, now: int): World { w.(p := q, clock := now) }

  /** The world after a turn of the pump of `tab`, which holds no entry while it runs. */
  function PumpLands(w: World, tab: string, r: (Proc, Turn), now: int): (v: World)
    ensures v.p == r.0 && v.clock == now && v.acked == w.acked && v.resets == w.resets && v.looks == w.looks
  {
    var base := Land(w, r.0, now);
    match r.1
    case Preparing(i) => base.(pumps := w.pumps[tab := Prepares(i)])
    case Sent(i) => base.(pumps := w.pumps[tab := Submits(i, Calling)], front := w.front[tab := i])
    case _ => base
  }

  /** The steps of the surroundings, and those that are one plain operation. */
  predicate Surrounding(s: Step) {
    || s.WithdrawScheduled? || s.TurnEnds? || s.PumpDies? || s.AnswerDies? || s.ReconcileBegins? || s.ReadFails?
    || s.AnswerRecovered? || s.Expiry? || s.Observe? || s.Flush? || s.Nonces? || s.Ask? || s.Settle? || s.Stop?
  }

  function AroundProc(w: World, s: Step, now: int): Proc
    requires s.AnswerRecovered? ==> s.i < |w.p.mem.messages|
  {
    match s
    case WithdrawScheduled(id, release, o) => CancelScheduled(w.p, id, release, now, o).0
    case TurnEnds(tab, turn, status, o) => TurnCompleted(w.p, tab, turn, status, now, o)
    case AnswerRecovered(i, o, o2) => RecoverAnswer(w.p, i, now, o, o2)
    case Expiry(o) => ExpirePass(w.p, now, o)
    case Observe(tab, t) => if t.Found? then w.p.(mem := Resolve(w.p.mem, tab, t)) else w.p
    case Flush(o) => Save(w.p, o)
    case Nonces(nonces, saves, o) =>
      var q := w.p.(mem := w.p.mem.(nonces := nonces));
      if saves then Save(q, o) else q
    case Ask(q, o) => Save(w.p.(mem := AddQuestion(w.p.mem, q)), o)
    case Settle(ref, state, o) => SetState(w.p, ref, state, o)
    case Stop => w.p.(closing := true)
    case _ => w.p
  }

  function Around(w: World, s: Step, now: int): (v: World)
    requires s.AnswerRecovered? ==> s.i < |w.p.mem.messages|
    ensures v.clock == now && v.acked == w.acked && v.resets == w.resets
    ensures forall r | r in v.looks :: r in w.looks && v.looks[r] == w.looks[r]
  {
    Land(w, AroundProc(w, s, now), now).(
      pumps := if s.PumpDies? then w.pumps - {s.tab} else w.pumps,
      answers := if s.AnswerDies? then w.answers - {s.i} else w.answers,
      looks := if s.ReadFails? then w.looks - {s.r} else w.looks,
      recovery := if s.ReconcileBegins? then Recovery(w.recovery, w.p.mem.messages, s.restarting) else w.recovery)
  }

  predicate OfCalls(s: Step) { s.Send? || s.Admit? || s.Withdraw? || s.ClaimStep? }

  predicate OfPumps(s: Step) {
    || s.PumpRuns? || s.PumpResumes? || s.PrepareFails? || s.Callback?
    || s.ReachProvider? || s.SubmitFails? || s.SubmitReturns?
  }

  predicate OfAnswers(s: Step) { s.AnswerBegins? || s.AnswerCallback? || s.AnswerReaches? || s.AnswerEnds? }

  /** Calls of users, the scheduler and cards. */
  function CallNext(w: World, s: Step, now: int): (v: World)
    requires Enabled(w, s, now) && Typed(w) && OfCalls(s)
    ensures v.clock == now && w.acked <= v.acked && v.looks == w.looks && v.resets == w.resets
  {
    match s
    case Send(tab, principal, call, id, t, limits, o) =>
      var r := Enqueue(w.p, tab, principal, call, id, t, limits, now, o);
      Land(w, r.0, now).(acked := Acked(w, r.1),
        sightings := if r.1.Receipt? && |r.0.mem.messages| > |w.p.mem.messages|
                     then w.sightings + Saw(r.0.mem, |w.p.mem.messages|, tab, t, false) else w.sightings)
    case Admit(item, t, enforceLimit, limits, o) =>
      var (m, e) := ScheduledItem(w, item, t);
      var r := AdmitScheduled(w.p.(mem := m), e, enforceLimit, limits, o);
      Land(w, r.0, now).(acked := Acked(w, r.1),
        sightings := if r.1.Receipt? && |r.0.mem.messages| > |w.p.mem.messages|
                     then w.sightings + Saw(r.0.mem, |w.p.mem.messages|, item.tab, t, false) else w.sightings)
    case Withdraw(tab, id, principal, o) =>
      var r := Cancel(w.p, tab, id, principal, now, o);
      Land(w, r.0, now).(acked := Acked(w, r.1))
    case ClaimStep(ref, principal, answer, callback, id, limits, o) =>
      var r := ClaimAnswer(w.p, ref, principal, answer, callback, id, limits, now, o);
      Land(w, r.0, now).(acked := Acked(w, r.1))
  }

  /** The pump of a tab, and the `submit` it started. */
  function PumpNext(w: World, s: Step, now: int): (v: World)
    requires Enabled(w, s, now) && Typed(w) && OfPumps(s)
    ensures v.clock == now && v.acked == w.acked && v.looks == w.looks && v.resets == w.resets
  {
    match s
    case PumpRuns(tab, prepares, t, bind, o) =>
      PumpLands(w, tab, PumpTurn(w.p, tab, prepares, t, now, bind, o), now)
    case PumpResumes(tab, reason, t, bind, o) =>
      PumpLands(w.(pumps := w.pumps - {tab}), tab, Resume(w.p, w.pumps[tab].i, reason, t, now, bind, o), now)
    case PrepareFails(tab, text, o) => Land(w, Change(w.p, w.pumps[tab].i, Failed, Text(text), now, o), now)
    case Callback(tab, t, o) =>
      var i := w.pumps[tab].i;
      var r := BeforeDelivery(w.p, i, t, o);
      if r.1 then
        Land(w, r.0, now).(pumps := w.pumps[tab := Submits(i, Cleared)],
          sightings := w.sightings + Saw(r.0.mem, i, tab, t, true))
      else Land(w, r.0, now)
    case ReachProvider(tab) =>
      var i := w.pumps[tab].i;
      Land(w, w.p, now).(pumps := w.pumps[tab := Submits(i, Reached)],
        contacts := w.contacts + [Contact(i, tab, Message)])
    case SubmitFails(tab, f, o) =>
      Land(w, SubmitFailed(w.p, w.pumps[tab].i, f, now, o), now).(pumps := w.pumps - {tab})
    case SubmitReturns(tab, o) =>
      Land(w, SubmitReturned(w.p, w.pumps[tab].i, now, o), now).(pumps := w.pumps - {tab})
  }

  /** The submission of answers. */
  function AnswerNext(w: World, s: Step, now: int): (v: World)
    requires Enabled(w, s, now) && Typed(w) && OfAnswers(s)
    ensures v.clock == now && v.acked == w.acked && v.looks == w.looks && v.resets == w.resets
  {
    match s
    case AnswerBegins(i, o) =>
      var r := AnswerBegin(w.p, i, now, o);
      if r.1 then Land(w, r.0, now).(answers := w.answers[i := Calling]) else Land(w, r.0, now)
    case AnswerCallback(i, o) =>
      var r := BeforeDelivery(w.p, i, NoTarget(0, ""), o);
      if r.1 then Land(w, r.0, now).(answers := w.answers[i := Cleared]) else Land(w, r.0, now)
    case AnswerReaches(i) =>
      Land(w, w.p, now).(answers := w.answers[i := Reached],
                         contacts := w.contacts + [Contact(i, w.p.mem.messages[i].tab, QuestionAnswer)])
    case AnswerEnds(i, outcome, o, o2) =>
      Land(w, AnswerEnd(w.p, i, outcome, now, o, o2), now).(answers := w.answers - {i})
  }

  predicate OfReads(s: Step) { s.ReadBegins? || s.ReadEnds? }

  /** The read holds what its entry is now. */
  predicate BegunAt(w: World, read: Read) {
    read.i < |w.p.mem.messages| && read.seen == (w.p.mem.messages[read.i].state, w.p.mem.messages[read.i].updatedAt)
  }

  /** Every pending read was pending before, or begins now. */
  predicate ReadsOnward(w: World, v: World) {
    forall r | r in v.looks :: (r in w.looks && v.looks[r] == w.looks[r]) || BegunAt(w, v.looks[r])
  }

  /** The reads of evidence. */
  function ReadNext(w: World, s: Step, now: int): (v: World)
    requires Enabled(w, s, now) && Typed(w) && OfReads(s)
    ensures v.clock == now && v.acked == w.acked && v.resets == w.resets && ReadsOnward(w, v)
  {
    match s
    case ReadBegins(r, i, current) =>
      var e := w.p.mem.messages[i];
      Land(w, MarkRead(w.p, i, i in w.recovery, current), now).(
        looks := w.looks[r := Read(i, (e.state, e.updatedAt), i in w.recovery, now)])
    case ReadEnds(r, proof, probe, restarting, o) =>
      var look := w.looks[r];
      var i, e := look.i, w.p.mem.messages[look.i];
      Land(w, CommitProof(w.p, i, look.seen, proof, LivenessOf(e, proof, look.recovering, probe), restarting, now, o),
        now)
        .(looks := w.looks - {r},
          recovery := if (e.state, e.updatedAt) == look.seen then w.recovery - {i} else w.recovery)
  }

  /** No step forgets an acknowledgement, and only two count as resets. */
  function Next(w: World, s: Step, now: int): (v: World)
    requires Enabled(w, s, now)
    requires Typed(w)
    ensures v.clock == now && w.acked <= v.acked && ReadsOnward(w, v)
    ensures v.resets == if s.Crash? || s.StartEnds? then w.resets + 1 else w.resets
  {
    if OfCalls(s) then CallNext(w, s, now)
    else if OfPumps(s) then PumpNext(w, s, now)
    else if OfAnswers(s) then AnswerNext(w, s, now)
    else if OfReads(s) then ReadNext(w, s, now)
    else if s.StartEnds? then Land(w, w.p.(closing := false), now).(up := true, resets := w.resets + 1)
    else if s.Crash? then
      World(Reopen(w.p), now, {}, map[], map[], map[], w.front, w.contacts, w.sightings, w.acked, false, w.resets + 1)
    else Around(w, s, now)
  }

  /** Tasks only refer to entries that exist. */
  predicate Typed(w: World) {
    && (forall tab | tab in w.pumps :: w.pumps[tab].i < |w.p.mem.messages|)
    && (forall i | i in w.answers :: i < |w.p.mem.messages|)
    && (forall r | r in w.looks :: w.looks[r].i < |w.p.mem.messages|)
  }
}
