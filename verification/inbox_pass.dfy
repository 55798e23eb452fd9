/** A pass of `reconcile` as steps of the protocol: what an uninterrupted pass computes is what the world is
    after the run has gone on by those steps. */
module InboxPass {
  import opened Options
  import opened ChatMessage
  import opened InboxStore
  import opened InboxEvolution
  import opened InboxOps
  import opened InboxMoves
  import opened InboxProtocol
  import opened InboxSafety
  import opened InboxRuns
  import opened InboxRestart

  /** From entry `i` on, every look comes with a later reading of the clock, with one between for its read. */
  predicate Timely(looks: seq<Look>, i: nat, clock: int)
    decreases |looks| - i
  {
    i >= |looks| || (looks[i].at >= clock + 2 && Timely(looks, i + 1, looks[i].at))
  }

  /** The steps of `reconcile`. */
  predicate OfPass(s: Step) {
    s.ReconcileBegins? || s.ReadBegins? || s.ReadFails? || s.ReadEnds? || s.AnswerRecovered? || s.Expiry?
  }

  ghost predicate PassLinks(w: World, v: World) { exists s, now :: Goes(w, v, s, now) && OfPass(s) }

  ghost predicate PassLinked(ws: seq<World>, k: nat)
    requires 0 < k < |ws|
  {
    PassLinks(ws[k - 1], ws[k])
  }

  /** The run `us` goes on from `ws` by such steps alone. */
  ghost predicate Passes(ws: seq<World>, us: seq<World>) {
    && 0 < |ws| <= |us| && Run(us) && us[..|ws|] == ws
    && (forall k {:trigger PassLinked(us, k)} | |ws| <= k < |us| :: PassLinked(us, k))
  }

  /** It does, with nothing changed in the end but the process and `_restart_recovery`. */
  ghost predicate Onwards(ws: seq<World>, us: seq<World>) {
    Passes(ws, us) && var w, v := Last(ws), Last(us); v == w.(p := v.p, clock := v.clock, recovery := v.recovery)
  }

  lemma OnePass(ws: seq<World>, us: seq<World>, s: Step, now: int)
    requires Longer(ws, us, s, now) && OfPass(s)
    ensures Passes(ws, us) && |us| > 0 && Run(us)
  {
    hide Starts, Linked, Goes;
    assert PassLinks(us[|ws| - 1], us[|ws|]);
  }

  lemma PassesTrans(ws: seq<World>, us: seq<World>, vs: seq<World>)
    requires Passes(ws, us) && Passes(us, vs)
    ensures Passes(ws, vs)
  {
    hide Run;
    assert vs[..|ws|] == vs[..|us|][..|ws|];
    forall k | |ws| <= k < |vs| ensures PassLinked(vs, k) {
      if k < |us| {
        assert PassLinked(us, k) && vs[k - 1] == vs[..|us|][k - 1] && vs[k] == vs[..|us|][k];
      }
    }
  }

  lemma OnwardsTrans(ws: seq<World>, us: seq<World>, vs: seq<World>)
    requires Onwards(ws, us) && Onwards(us, vs)
    ensures Onwards(ws, vs)
  {
    hide Passes;
    PassesTrans(ws, us, vs);
  }

  lemma FreshRead(keys: set<nat>) returns (r: nat)
    ensures forall k | k in keys :: k < r
    decreases |keys|
  {
    r := 0;
    if keys != {} {
      var k :| k in keys;
      var rest := FreshRead(keys - {k});
      assert keys == (keys - {k}) + {k};
      r := if rest > k then rest else k + 1;
    }
  }

  lemma MarkedIsSeen(p: Proc, i: nat, recovering: bool, current: int)
    requires i < |p.mem.messages|
    ensures var q := MarkRead(p, i, recovering, current);
            && |q.mem.messages| == |p.mem.messages|
            && q.mem.messages[i] == p.mem.messages[i].(recoveryCheckedAt := q.mem.messages[i].recoveryCheckedAt)
  {
  }

  /** What the turn of the loop does with an entry it reads evidence for. */
  lemma ExamineReads(s: Pass, i: nat, look: Look, restarting: bool, current: int)
    requires i < |s.p.mem.messages| && ReadsEvidence(s.p.mem.messages[i], i in s.recovery, current)
    ensures var e, q := s.p.mem.messages[i], MarkRead(s.p, i, i in s.recovery, current);
            var proof := if look.proof.None? then Proof.Started else look.proof.value;
            var r := Examine(s, i, look, restarting, current);
            if look.proof.None? && e.scheduled then r.p == q && r.recovery == s.recovery
            else
              && r.p == CommitProof(q, i, (e.state, e.updatedAt), proof,
                                    LivenessOf(e, proof, i in s.recovery, look.probe), restarting, look.at, look.o)
              && r.recovery == s.recovery - {i}
  {
    hide CommitProof, MarkRead, LivenessOf, Throttled;
  }

  function Believed(look: Look): Proof { if look.proof.None? then Proof.Started else look.proof.value }

  /** The world when a read has begun, and when it is over. */
  function Looking(w: World, r: nat, i: nat, current: int, now: int): World
    requires i < |w.p.mem.messages|
  {
    var e := w.p.mem.messages[i];
    Land(w, MarkRead(w.p, i, i in w.recovery, current), now)
    .(looks := w.looks[r := Read(i, (e.state, e.updatedAt), i in w.recovery, now)])
  }

  function Looked(w: World, r: nat, look: Look, restarting: bool): World
    requires r in w.looks && w.looks[r].i < |w.p.mem.messages|
  {
    var read, e := w.looks[r], w.p.mem.messages[w.looks[r].i];
    if look.proof.None? && e.scheduled then Land(w, w.p, look.at).(looks := w.looks - {r})
    else
      Land(w, CommitProof(w.p, read.i, read.seen, Believed(look),
                          LivenessOf(e, Believed(look), read.recovering, look.probe), restarting, look.at, look.o),
           look.at)
      .(looks := w.looks - {r},
        recovery := if (e.state, e.updatedAt) == read.seen then w.recovery - {read.i} else w.recovery)
  }

  lemma LookedIsExamined(w: World, r: nat, i: nat, look: Look, restarting: bool, current: int, now: int)
    requires r !in w.looks && i < |w.p.mem.messages|
    requires ReadsEvidence(w.p.mem.messages[i], i in w.recovery, current)
    ensures var u := Looking(w, r, i, current, now);
            var s := Examine(Pass(w.p, w.recovery, false), i, look, restarting, current);
            && r in u.looks && u.looks[r].i < |u.p.mem.messages|
            && Looked(u, r, look, restarting) == w.(p := s.p, recovery := s.recovery, clock := look.at)
  {
    hide MarkRead, CommitProof, LivenessOf, ReadsEvidence, Examine;
    var u := Looking(w, r, i, current, now);
    MarkedIsSeen(w.p, i, i in w.recovery, current);
    ExamineReads(Pass(w.p, w.recovery, false), i, look, restarting, current);
    SameLiveness(w.p.mem.messages[i], u.p.mem.messages[i], Believed(look), i in w.recovery, look.probe);
    assert u.looks - {r} == w.looks;
  }

  /** The end of a read that has begun, or its failure. */
  lemma ReadClosed(ws: seq<World>, r: nat, look: Look, restarting: bool) returns (us: seq<World>)
    requires Run(ws) && look.at > Last(ws).clock && r in Last(ws).looks
    requires Last(ws).looks[r].i < |Last(ws).p.mem.messages|
    ensures Passes(ws, us) && |us| > 0 && Last(us) == Looked(Last(ws), r, look, restarting)
  {
    hide Run, Goes, Next, PassLinked, CommitProof, LivenessOf, Typed;
    HasWorlds(ws);
    var s := if look.proof.None? && Last(ws).p.mem.messages[Last(ws).looks[r].i].scheduled then ReadFails(r)
             else ReadEnds(r, Believed(look), look.probe, restarting, look.o);
    us := GoOn(ws, s, look.at);
    OnePass(ws, us, s, look.at);
  }

  /** The turn of the loop that reads evidence, as the begin of a read and its end or failure. */
  lemma ReadRuns(ws: seq<World>, i: nat, look: Look, restarting: bool, current: int) returns (us: seq<World>)
    requires Run(ws) && i < |Last(ws).p.mem.messages| && look.at >= Last(ws).clock + 2
    requires ReadsEvidence(Last(ws).p.mem.messages[i], i in Last(ws).recovery, current)
    ensures Onwards(ws, us) && Last(us).clock == look.at
    ensures var r := Examine(Pass(Last(ws).p, Last(ws).recovery, false), i, look, restarting, current);
            Last(us).p == r.p && Last(us).recovery == r.recovery
  {
    hide Run, Goes, Next, Passes, MarkRead, ReadsEvidence, Examine, Looked, Typed;
    HasWorlds(ws);
    var r := FreshRead(Last(ws).looks.Keys);
    LookedIsExamined(Last(ws), r, i, look, restarting, current, look.at - 1);
    var mid := GoOn(ws, ReadBegins(r, i, current), look.at - 1);
    OnePass(ws, mid, ReadBegins(r, i, current), look.at - 1);
    us := ReadClosed(mid, r, look, restarting);
    PassesTrans(ws, mid, us);
  }

  /** One turn of the loop. */
  lemma ExamineRuns(ws: seq<World>, i: nat, look: Look, restarting: bool, current: int) returns (us: seq<World>)
    requires Run(ws) && i < |Last(ws).p.mem.messages| && look.at >= Last(ws).clock + 2
    ensures Onwards(ws, us) && Last(us).clock <= look.at
    ensures var r := Examine(Pass(Last(ws).p, Last(ws).recovery, false), i, look, restarting, current);
            Last(us).p == r.p && Last(us).recovery == r.recovery
  {
    hide Goes, Starts, Linked, Next, PassLinked, MarkRead, CommitProof, LivenessOf, ReadsEvidence, Verdict, Changed,
         RecoverAnswer, FirstQuestion;
    var w := Last(ws);
    var e := w.p.mem.messages[i];
    us := ws;
    if e.kind.QuestionAnswer? {
      if restarting && Halfway(e) {
        us := GoOn(ws, AnswerRecovered(i, look.o, look.o2), look.at);
        OnePass(ws, us, AnswerRecovered(i, look.o, look.o2), look.at);
      }
    } else if ReadsEvidence(e, i in w.recovery, current) {
      us := ReadRuns(ws, i, look, restarting, current);
    }
  }

  lemma {:induction false} PassRuns(ws: seq<World>, i: nat, looks: seq<Look>, restarting: bool, current: int,
                                    clock: int) returns (us: seq<World>)
    requires Run(ws) && i <= |looks| == |Last(ws).p.mem.messages|
    requires Last(ws).clock <= clock && Timely(looks, i, clock)
    ensures Onwards(ws, us)
    ensures var r := ExamineFrom(Pass(Last(ws).p, Last(ws).recovery, false), i, looks, restarting, current);
            Last(us).p == r.p && Last(us).recovery == r.recovery
    ensures Last(us).clock <= if i < |looks| then looks[|looks| - 1].at else clock
    decreases |looks| - i
  {
    hide Goes, Starts, Linked, Next, PassLinked, Examine;
    us := ws;
    if i < |looks| {
      TimesRise(looks, i, clock);
      var mid := ExamineRuns(ws, i, looks[i], restarting, current);
      var r := Examine(Pass(Last(ws).p, Last(ws).recovery, false), i, looks[i], restarting, current);
      us := mid;
      if !r.raised {
        us := PassRuns(mid, i + 1, looks, restarting, current, looks[i].at);
        OnwardsTrans(ws, mid, us);
      }
    }
  }

  lemma {:induction false} TimesRise(looks: seq<Look>, i: nat, clock: int)
    requires Timely(looks, i, clock) && i < |looks|
    ensures clock < looks[i].at <= looks[|looks| - 1].at
    decreases |looks| - i
  {
    if i + 1 < |looks| { TimesRise(looks, i + 1, looks[i].at); }
  }

  /** The pass up to its expiry. */
  lemma LoopRuns(ws: seq<World>, looks: seq<Look>, restarting: bool, current: int) returns (us: seq<World>)
    requires Run(ws) && |looks| == |Last(ws).p.mem.messages| && Timely(looks, 0, Last(ws).clock + 1)
    ensures Onwards(ws, us) && |us| > 0 && Run(us)
    ensures Last(us).clock <= if looks == [] then Last(ws).clock + 1 else looks[|looks| - 1].at
    ensures var w := Last(ws);
            var r := ExamineFrom(Pass(w.p, Recovery(w.recovery, w.p.mem.messages, restarting), false), 0, looks,
                                 restarting, current);
            Last(us).p == r.p && Last(us).recovery == r.recovery
  {
    hide Goes, Starts, Linked, Next, PassLinked, ExamineFrom, Recovery, Timely;
    var now := Last(ws).clock + 1;
    var begun := GoOn(ws, ReconcileBegins(restarting), now);
    OnePass(ws, begun, ReconcileBegins(restarting), now);
    us := PassRuns(begun, 0, looks, restarting, current, now);
    OnwardsTrans(ws, begun, us);
  }

  lemma ExpiryRuns(ws: seq<World>, o: Saving, at: int) returns (us: seq<World>)
    requires Run(ws) && at > Last(ws).clock
    ensures Onwards(ws, us)
    ensures Last(us).p == ExpirePass(Last(ws).p, at, o) && Last(us).recovery == Last(ws).recovery
  {
    hide Goes, Run, Next, PassLinked, ExpirePass, Typed;
    HasWorlds(ws);
    us := GoOn(ws, Expiry(o), at);
    OnePass(ws, us, Expiry(o), at);
  }

  /** A whole pass is the steps that begin it, examine one entry after another and expire what is old; and the
      run that goes on by them alone comes to where `reconcile` leaves the process. */
  lemma ReconcileRuns(ws: seq<World>, looks: seq<Look>, restarting: bool, current: int, at: int, o: Saving)
      returns (us: seq<World>)
    requires Run(ws) && |looks| == |Last(ws).p.mem.messages|
    requires Timely(looks, 0, Last(ws).clock + 1)
    requires at > if looks == [] then Last(ws).clock + 1 else looks[|looks| - 1].at
    ensures Onwards(ws, us)
    ensures var r := Reconcile(Last(ws).p, Last(ws).recovery, looks, restarting, current, at, o);
            Last(us).p == r.p && Last(us).recovery == r.recovery
  {
    hide Run, Passes, ExamineFrom, ExpirePass, Recovery, Timely, ExpireStore;
    HasWorlds(ws);
    var w := Last(ws);
    us := LoopRuns(ws, looks, restarting, current);
    if !ExamineFrom(Pass(w.p, Recovery(w.recovery, w.p.mem.messages, restarting), false), 0, looks, restarting,
                    current).raised {
      var done := us;
      us := ExpiryRuns(done, o, at);
      OnwardsTrans(ws, done, us);
    }
  }

  /** So wherever a run has led, into a new process or not, it can go on by the pass at start-up, and is then in
      a world that has nothing in doubt. */
  lemma RestartRuns(ws: seq<World>, looks: seq<Look>, current: int, at: int) returns (us: seq<World>)
    requires Run(ws) && !Last(ws).p.closing && |looks| == |Last(ws).p.mem.messages|
    requires forall look | look in looks :: look.o.SaveOk? && look.o2.SaveOk?
    requires Timely(looks, 0, Last(ws).clock + 1)
    requires at > if looks == [] then Last(ws).clock + 1 else looks[|looks| - 1].at
    ensures Onwards(ws, us) && !Last(us).p.closing
    ensures NothingInDoubt(Last(ws).p.mem.messages, looks, Last(us).p.mem.messages, Last(us).recovery)
  {
    hide Goes, Starts, Linked, Reconcile, NothingInDoubt, Timely;
    us := ReconcileRuns(ws, looks, true, current, at, SaveOk);
    RestartLeavesNothingInDoubt(Last(ws).p, Last(ws).recovery, looks, current, at);
  }
}
