/** What crashes and failed saves forget of the conversations that were observed: exactly what the file,
    or the saved payload, neither pins nor has left behind. */
module InboxEpochs {
  import opened Options
  import opened ChatMessage
  import opened InboxStore
  import opened InboxEvolution
  import opened InboxOps
  import opened InboxMoves
  import opened InboxProtocol
  import opened InboxSafety
  import opened InboxSteps
  import opened InboxRuns

  /** The memory after the tab was observed with one conversation after another. */
  function Watch(s: Store, key: Key, cs: seq<string>): Store {
    if cs == [] then s else Resolve(Watch(s, key, cs[..|cs| - 1]), key.0, Found(key.1, cs[|cs| - 1], ""))
  }

  /** The store is past epoch `e`, or in it with conversation `c` pinned. */
  predicate Outlives(s: Store, key: Key, e: nat, c: string) {
    s.Epoch(key) > e || (s.Epoch(key) == e && s.Pinned(key) == c)
  }

  /** Epoch `e` is observed with a conversation that is not `c`. */
  predicate Reobserved(s: Store, key: Key, e: nat, c: string) {
    s.Epoch(key) == e && s.Pinned(key) != "" && s.Pinned(key) != c
  }

  lemma {:induction false} WatchFollows(s: Store, key: Key, cs: seq<string>)
    ensures PinFollows(s, Watch(s, key, cs), key)
  {
    if cs != [] {
      WatchFollows(s, key, cs[..|cs| - 1]);
    }
  }

  function Other(a: string, b: string): (d: string)
    ensures d != "" && d != a && d != b
  {
    a + b + "'"
  }

  lemma WatchOnce(s: Store, key: Key, cs: seq<string>, d: string)
    ensures Watch(s, key, cs + [d]) == Resolve(Watch(s, key, cs), key.0, Found(key.1, d, ""))
  {
    assert (cs + [d])[..|cs|] == cs;
  }

  /** From any epoch the next one is reached, and with any conversation but the last one seen. */
  lemma Bump(s: Store, key: Key, cs: seq<string>, c: string) returns (ds: seq<string>)
    ensures Watch(s, key, ds).Epoch(key) == Watch(s, key, cs).Epoch(key) + 1
    ensures Watch(s, key, ds).Pinned(key) !in {"", c}
  {
    var m := Watch(s, key, cs);
    if m.Pinned(key) == "" {
      var x := Other("", "");
      WatchOnce(s, key, cs, x);
      ds := cs + [x] + [Other(x, c)];
      WatchOnce(s, key, cs + [x], Other(x, c));
    } else {
      ds := cs + [Other(m.Pinned(key), c)];
      WatchOnce(s, key, cs, Other(m.Pinned(key), c));
    }
  }

  lemma {:induction false} Climb(s: Store, key: Key, e: nat, c: string) returns (cs: seq<string>)
    requires e >= s.Epoch(key) && !Outlives(s, key, e, c) && c != ""
    ensures Reobserved(Watch(s, key, cs), key, e, c)
    decreases e
  {
    cs := [];
    if e == s.Epoch(key) {
      if s.Pinned(key) == "" {
        cs := [Other("", c)];
        WatchOnce(s, key, [], Other("", c));
      }
    } else if e - 1 == s.Epoch(key) {
      cs := Bump(s, key, [], c);
    } else {
      var before := Climb(s, key, e - 1, c);
      cs := Bump(s, key, before, c);
    }
  }

  /** Some observations lead there. */
  ghost predicate CanSee(s: Store, key: Key, e: nat, c: string) {
    exists cs :: Reobserved(Watch(s, key, cs), key, e, c)
  }

  /** Observations lead from a store to epoch `e` with another conversation than `c` exactly when the store
      is not past that epoch and does not pin `c` in it. */
  lemma ReobservedExactly(s: Store, key: Key, e: nat, c: string)
    requires c != ""
    ensures CanSee(s, key, e, c) <==> !Outlives(s, key, e, c)
  {
    if Outlives(s, key, e, c) {
      forall cs ensures !Reobserved(Watch(s, key, cs), key, e, c) { WatchFollows(s, key, cs); }
    } else {
      var cs := Climb(s, key, e, c);
      assert Reobserved(Watch(s, key, cs), key, e, c);
    }
  }

  /** What the memory pinned when the process died is forgotten exactly if the file does not keep it. */
  lemma CrashForgetsExactly(p: Proc, key: Key)
    requires Coherent(p) && p.mem.Pinned(key) != ""
    ensures var e, c := p.mem.Epoch(key), p.mem.Pinned(key);
            CanSee(Reopen(p).mem, key, e, c) <==> !Outlives(p.disk, key, e, c)
  {
    hide CanSee, Outlives, WellFormed, Restore;
    RestoreAcceptsExactlyWellFormedAt(p.disk);
    ReobservedExactly(p.disk, key, p.mem.Epoch(key), p.mem.Pinned(key));
  }

  /** And what it pinned when a save failed, exactly if the last saved payload does not keep it. */
  lemma FailedSaveForgetsExactly(p: Proc, m: Store, o: Saving, key: Key)
    requires Coherent(p) && !o.SaveOk? && p.mem.Pinned(key) != ""
    ensures var e, c := p.mem.Epoch(key), p.mem.Pinned(key);
            CanSee(Save(p.(mem := m), o).mem, key, e, c) <==> !Outlives(p.committed, key, e, c)
  {
    hide CanSee, Outlives, WellFormed, Restore;
    SaveOutcome(p.(mem := m), o);
    ReobservedExactly(p.committed, key, p.mem.Epoch(key), p.mem.Pinned(key));
  }

  // ------------------------------------------------------------------ the same of runs

  ghost predicate Extends(vs: seq<World>, ws: seq<World>) {
    Run(vs) && |ws| <= |vs| && vs[..|ws|] == ws
  }

  ghost predicate EndsReobserved(vs: seq<World>, key: Key, e: nat, c: string) {
    |vs| > 0 && Reobserved(vs[|vs| - 1].p.mem, key, e, c)
  }

  ghost predicate CanReobserve(ws: seq<World>, key: Key, e: nat, c: string) {
    exists vs :: Extends(vs, ws) && EndsReobserved(vs, key, e, c)
  }

  lemma {:induction false} WatchRuns(ws: seq<World>, key: Key, cs: seq<string>) returns (vs: seq<World>)
    requires Run(ws)
    ensures Extends(vs, ws) && vs[|vs| - 1].p.mem == Watch(ws[|ws| - 1].p.mem, key, cs)
    decreases |cs|
  {
    hide Next, Goes, Linked, Starts, Resolve, Typed;
    vs := ws;
    if cs != [] {
      var us := WatchRuns(ws, key, cs[..|cs| - 1]);
      var t := Found(key.1, cs[|cs| - 1], "");
      vs := GoOn(us, Observe(key.0, t), Last(us).clock + 1);
      assert vs[..|ws|] == us[..|ws|];
    }
  }

  /** However a run goes on, with crashes and failing saves, it can come to observe epoch `e` with another
      conversation than `c` exactly when the saved payload is not past that epoch and does not pin `c` in
      it: what was seen is safe from the moment it is saved, and not before. */
  lemma ForgottenExactly(ws: seq<World>, key: Key, e: nat, c: string)
    requires Run(ws) && c != ""
    ensures CanReobserve(ws, key, e, c) <==> !Outlives(ws[|ws| - 1].p.committed, key, e, c)
  {
    hide Next, Enabled, Linked, Starts, Resolve, Typed, Safe, Save, Evolves;
    var w := ws[|ws| - 1];
    if Outlives(w.p.committed, key, e, c) {
      forall vs: seq<World> | Extends(vs, ws) ensures !EndsReobserved(vs, key, e, c) {
        EverythingFollows(vs, |ws| - 1, |vs| - 1);
        PinStays(w.p.committed, vs[|vs| - 1].p.mem, key);
      }
    } else {
      var us := FlushFails(ws);
      var cs := Climb(w.p.committed, key, e, c);
      var vs := WatchRuns(us, key, cs);
      assert vs[..|ws|] == vs[..|us|][..|ws|] == ws;
      assert Extends(vs, ws) && EndsReobserved(vs, key, e, c);
    }
  }

  lemma PinStays(a: Store, b: Store, key: Key)
    requires Evolves(a, b)
    ensures PinFollows(a, b, key)
  {
  }

  /** A save that fails brings the memory back to what was saved last. */
  lemma FlushFails(ws: seq<World>) returns (us: seq<World>)
    requires Run(ws)
    ensures 0 < |ws| == |us| - 1 && Run(us) && us[..|ws|] == ws && Last(us).p.mem == Last(ws).p.committed
  {
    hide Next, Goes, Linked, Starts, Typed, Save, Inv, Evolves;
    RunIsSafe(ws, |ws| - 1);
    us := GoOn(ws, Flush(FailsBeforeReplace), Last(ws).clock + 1);
    CommittedInv(Last(ws).p);
    SaveOutcome(Last(ws).p, FailsBeforeReplace);
  }

  /** Once the process has died, the same is decided by the file it leaves. */
  lemma CrashForgetsInRuns(ws: seq<World>, now: int, key: Key, e: nat, c: string)
    requires Run(ws) && Enabled(ws[|ws| - 1], Crash, now) && c != ""
    ensures Typed(ws[|ws| - 1])
    ensures CanReobserve(ws + [Next(ws[|ws| - 1], Crash, now)], key, e, c)
            <==> !Outlives(ws[|ws| - 1].p.disk, key, e, c)
  {
    hide Linked, Starts, Next, Enabled, Safe, CanReobserve, Outlives;
    var w := ws[|ws| - 1];
    RunGoesOn(ws, Crash, now);
    RunIsSafe(ws, |ws| - 1);
    CrashIsSafe(w, now);
    ForgottenExactly(ws + [Next(w, Crash, now)], key, e, c);
  }
}
