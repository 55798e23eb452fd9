/** `ServiceLauncher.promote_frontend` of backend/claude_hub/service_launcher.py: the built tree takes
    the place of the live one by two renames, with a way back.

    A rename is atomic and fails onto a directory that is there; `shutil.rmtree` may leave part of a tree.
    An interruption can come between any two statements, the assignment of `promoted` and the end of the
    `try` included; an interpreter that delivers signals at fewer points has fewer of these runs. */
module FrontendPromotion {
  import opened Options

  /** What is at a path: nothing, a complete tree, or what a removal has left of one. */
  datatype Tree = Absent | Whole(version: nat) | Remains(version: nat)

  datatype Disk = Disk(dist: Tree, build: Tree, backup: Tree)

  /** The one fault of the `try` block: where an interruption arrives, or which rename fails. */
  datatype Fault = Nowhere | BeforeFirst | FirstFails | AfterFirst | SecondFails | AfterSecond | AfterPromoted

  /** How one `rmtree(..., ignore_errors=True)` ends. */
  datatype Removal = Removed | LeavesSome | LeavesAll | Interrupted(leavesSome: bool)

  datatype Restoring = Restores | RestoreFails | StoppedBefore | StoppedAfter

  datatype Plan = Plan(fault: Fault, removal: Removal, restoring: Restoring, cleanBuild: Removal, cleanBackup: Removal)

  datatype Outcome = NothingToDo | NotConfigured | Promoted | Interruption | NotPromoted(restored: bool) | NotRestored

  // ------------------------------------------------------------------ primitive steps

  function Remove(t: Tree, r: Removal): Tree {
    if t.Absent? || r.LeavesAll? then t
    else if r.Removed? then Absent
    else if r.LeavesSome? || r.leavesSome then Remains(t.version)
    else t
  }

  // ------------------------------------------------------------------ the three clauses

  datatype Tried = Tried(disk: Disk, promoted: bool, error: Option<Outcome>)

  /** The `try` block: the disk, the flag, and what it raises. */
  function Try(d: Disk, fault: Fault): Tried {
    if fault.BeforeFirst? then Tried(d, false, Some(Interruption))
    else if !d.dist.Absent? && (fault.FirstFails? || !d.backup.Absent?) then Tried(d, false, Some(NotPromoted(false)))
    else
      var aside := if d.dist.Absent? then d else Disk(Absent, d.build, d.dist);
      if fault.AfterFirst? then Tried(aside, false, Some(Interruption))
      else if fault.SecondFails? || d.build.Absent? then Tried(aside, false, Some(NotPromoted(false)))
      else
        var placed := Disk(aside.build, Absent, aside.backup);
        if fault.AfterSecond? then Tried(placed, false, Some(Interruption))
        else if fault.AfterPromoted? then Tried(placed, true, Some(Interruption))
        else Tried(placed, true, None)
  }

  /** The `except` clause. */
  function Handle(d: Disk, error: Outcome, plan: Plan): (Disk, Outcome) {
    if d.backup.Absent? then (d, if error.NotPromoted? then NotPromoted(!d.dist.Absent?) else error)
    else
      var cleared := d.(dist := Remove(d.dist, plan.removal));
      if !d.dist.Absent? && plan.removal.Interrupted? then (cleared, Interruption)
      else if plan.restoring.StoppedBefore? then (cleared, Interruption)
      else if plan.restoring.RestoreFails? || !cleared.dist.Absent? then (cleared, NotRestored)
      else
        var back := Disk(cleared.backup, cleared.build, Absent);
        (back, if plan.restoring.StoppedAfter? then Interruption else if error.NotPromoted? then NotPromoted(true)
          else error)
  }

  /** The `finally` clause. */
  function Finally(d: Disk, promoted: bool, plan: Plan): Disk {
    if promoted then d.(backup := Remove(d.backup, plan.cleanBackup)) else d.(build := Remove(d.build, plan.cleanBuild))
  }

  function Promote(d: Disk, plan: Plan): (Disk, Outcome) {
    var t := Try(d, plan.fault);
    var (after, outcome) := if t.error.None? then (t.disk, Promoted) else Handle(t.disk, t.error.value, plan);
    (Finally(after, t.promoted, plan), outcome)
  }

  // ------------------------------------------------------------------ what survives

  /** A complete build and a fresh name for the backup; the live path may hold anything. */
  predicate Starts(d: Disk) { d.build.Whole? && d.backup.Absent? }

  /** One interruption or failing rename, up to the assignment of `promoted`; the way back may fail as
      well, but is not interrupted. */
  predicate OneFault(plan: Plan) {
    !plan.fault.AfterPromoted? && !plan.removal.Interrupted? && !plan.restoring.StoppedBefore?
      && !plan.restoring.StoppedAfter?
  }

  /** The live tree on exit is the one before or the whole new one; or else it could not be restored,
      which the error says, and what was live is at the backup path as it was. */
  lemma PromotionIsAtomic(d: Disk, plan: Plan)
    requires Starts(d) && OneFault(plan)
    ensures var (e, outcome) := Promote(d, plan);
            && (outcome.Promoted? <==> plan.fault.Nowhere? || (d.dist.Absent? && plan.fault.FirstFails?))
            && (outcome.Promoted? ==> e.dist == d.build && e.build.Absent?)
            && (e.dist == d.dist || e.dist == d.build || (outcome.NotRestored? && e.backup == d.dist))
            && (!d.dist.Absent? && !outcome.NotRestored? ==> e.dist == if outcome.Promoted? then d.build else d.dist)
            && (outcome.NotPromoted? ==> e.dist == d.dist && outcome.restored == !d.dist.Absent?)
  {
  }

  /** Where a complete tree can still be served from. */
  predicate Survives(e: Disk) { e.dist.Whole? || e.backup.Whole? }

  /** With any faults, in the handler and the cleanup as well, a whole live tree is lost, and the new one
      with it, exactly when the interruption arrives after `promoted` was set, the old tree is then not
      put back, and the cleanup of the `finally` clause, which goes by `promoted`, gets at the backup. */
  lemma LostExactly(d: Disk, plan: Plan)
    requires Starts(d) && d.dist.Whole?
    ensures !Survives(Promote(d, plan).0) <==>
              && plan.fault.AfterPromoted?
              && Remove(d.build, plan.removal) != d.build
              && (plan.removal != Removed || plan.restoring.RestoreFails? || plan.restoring.StoppedBefore?)
              && Remove(d.dist, plan.cleanBackup) != d.dist
  {
  }

  /** For instance. */
  lemma LateInterruptionLosesBoth()
    ensures var d := Disk(Whole(0), Whole(1), Absent);
            var plan := Plan(AfterPromoted, Removed, RestoreFails, Removed, Removed);
            Starts(d) && Promote(d, plan) == (Disk(Absent, Absent, Absent), NotRestored)
  {
  }

  /** With complete removals the build path is empty on every way out, and what is left at the backup
      path, after a promotion that did not succeed, is exactly the tree that was live. */
  lemma CleansUp(d: Disk, plan: Plan)
    requires Starts(d) && plan.cleanBuild.Removed? && plan.cleanBackup.Removed?
    ensures var (e, outcome) := Promote(d, plan);
            && e.build.Absent?
            && (!e.backup.Absent? ==> e.backup == d.dist && !outcome.Promoted?)
  {
  }

  /** Is the old tree out of the way when the fault comes, and is the new one in its place? */
  predicate Aside(d: Disk, fault: Fault) {
    !d.dist.Absent? && (fault.AfterFirst? || fault.SecondFails? || fault.AfterSecond? || fault.AfterPromoted?)
  }

  predicate Placed(fault: Fault) { fault.AfterSecond? || fault.AfterPromoted? }

  /** Nothing has gone wrong: the rename that could fail is not needed when there is nothing to move aside. */
  predicate Succeeds(d: Disk, plan: Plan) { plan.fault.Nowhere? || (d.dist.Absent? && plan.fault.FirstFails?) }

  /** The handler comes to the rename that puts the old tree back. */
  predicate WayBackTried(d: Disk, plan: Plan) {
    Aside(d, plan.fault) && !(Placed(plan.fault) && plan.removal.Interrupted?) && !plan.restoring.StoppedBefore?
  }

  /** And it can be done: the live path is free. */
  predicate PutBack(d: Disk, plan: Plan) {
    WayBackTried(d, plan) && !plan.restoring.RestoreFails? && (Placed(plan.fault) ==> plan.removal.Removed?)
  }

  /** For any faults, of the `try` block, the handler and the cleanup: what is at each of the paths on exit. */
  lemma TreesExactly(d: Disk, plan: Plan)
    requires Starts(d)
    ensures var e := Promote(d, plan).0;
            && e.dist == (if Succeeds(d, plan) then d.build
                          else if Aside(d, plan.fault) then
                            (if PutBack(d, plan) then d.dist
                             else if Placed(plan.fault) then Remove(d.build, plan.removal) else Absent)
                          else if Placed(plan.fault) then d.build else d.dist)
            && e.backup == (if Succeeds(d, plan) then Remove(d.dist, plan.cleanBackup)
                            else if !Aside(d, plan.fault) || PutBack(d, plan) then Absent
                            else if plan.fault.AfterPromoted? then Remove(d.dist, plan.cleanBackup)
                            else d.dist)
            && e.build == (if Succeeds(d, plan) || Placed(plan.fault) then Absent
                           else Remove(d.build, plan.cleanBuild))
  {
  }

  /** And what the caller is told: success exactly if nothing went wrong, a failed way back exactly if it was tried in
      vain, a failed promotion exactly if a rename failed and nothing came between, and an interruption otherwise. */
  lemma ToldExactly(d: Disk, plan: Plan)
    requires Starts(d)
    ensures var outcome := Promote(d, plan).1;
            && (outcome.Promoted? <==> Succeeds(d, plan))
            && (outcome.NotRestored? <==> WayBackTried(d, plan) && !PutBack(d, plan))
            && (outcome.NotPromoted? <==>
                  && (plan.fault.SecondFails? || (plan.fault.FirstFails? && !d.dist.Absent?))
                  && (Aside(d, plan.fault) ==> PutBack(d, plan) && !plan.restoring.StoppedAfter?))
            && (outcome.NotPromoted? ==> outcome.restored == !d.dist.Absent?)
            && !outcome.NothingToDo? && !outcome.NotConfigured?
  {
  }

  // ------------------------------------------------------------------ restart after restart

  /** The live path, and what earlier promotions have left at their backup paths. */
  datatype Site = Site(dist: Tree, kept: seq<Tree>)

  datatype Attempt = Attempt(version: nat, plan: Plan)

  function Built(s: Site, a: Attempt): Disk { Disk(s.dist, Whole(a.version), Absent) }

  function Redeploy(s: Site, a: Attempt): Site {
    var e := Promote(Built(s, a), a.plan).0;
    Site(e.dist, if e.backup.Absent? then s.kept else s.kept + [e.backup])
  }

  function RedeployAll(s: Site, attempts: seq<Attempt>): Site {
    if attempts == [] then s else Redeploy(RedeployAll(s, attempts[..|attempts| - 1]), attempts[|attempts| - 1])
  }

  ghost predicate Servable(s: Site) { s.dist.Whole? || exists k :: 0 <= k < |s.kept| && s.kept[k].Whole? }

  /** Through any number of restarts, each with a fault of its own, there is always a complete tree at
      the live path or at a backup path that was reported. */
  lemma {:induction false} NeverWithoutATree(s: Site, attempts: seq<Attempt>)
    requires Servable(s) && forall a | a in attempts :: OneFault(a.plan)
    ensures Servable(RedeployAll(s, attempts))
  {
    if attempts != [] {
      var init, last := attempts[..|attempts| - 1], attempts[|attempts| - 1];
      NeverWithoutATree(s, init);
      var before := RedeployAll(s, init);
      PromotionIsAtomic(Built(before, last), last.plan);
      var after := Redeploy(before, last);
      if before.dist.Whole? && !after.dist.Whole? {
        assert after.kept[|before.kept|] == before.dist;
      } else if !before.dist.Whole? {
        var k :| 0 <= k < |before.kept| && before.kept[k].Whole?;
        assert after.kept[k] == before.kept[k];
      }
    }
  }

  /** Does the removal leave less than a whole tree of one? */
  predicate Damages(r: Removal) { !r.LeavesAll? && !(r.Interrupted? && !r.leavesSome) }

  ghost predicate Kept(s: Site) { exists k :: 0 <= k < |s.kept| && s.kept[k].Whole? }

  /** The restart that loses the last whole trees: the live one is whole and no backup is. */
  ghost predicate Loses(s: Site, a: Attempt) {
    && s.dist.Whole? && !Kept(s)
    && a.plan.fault.AfterPromoted? && Damages(a.plan.removal) && Damages(a.plan.cleanBackup)
    && (a.plan.removal != Removed || a.plan.restoring.RestoreFails? || a.plan.restoring.StoppedBefore?)
  }

  /** The restart that brings a whole tree where there is none at the live path. */
  predicate Brings(live: Tree, plan: Plan) {
    if live.Absent? then !plan.fault.BeforeFirst? && !plan.fault.AfterFirst? && !plan.fault.SecondFails?
    else plan.fault.Nowhere?
         || ((plan.fault.AfterSecond? || plan.fault.AfterPromoted?) && !Damages(plan.removal))
  }

  lemma ServableStep(s: Site, a: Attempt)
    ensures Servable(s) ==> (!Servable(Redeploy(s, a)) <==> Loses(s, a))
    ensures !Servable(s) ==> (Servable(Redeploy(s, a)) <==> Brings(s.dist, a.plan))
  {
    hide Promote;
    var r, e := Redeploy(s, a), Promote(Built(s, a), a.plan).0;
    if Kept(s) {
      var k :| 0 <= k < |s.kept| && s.kept[k].Whole?;
      assert r.kept[k] == s.kept[k];
    } else {
      assert Servable(r) <==> Survives(e) by {
        if e.backup.Whole? { assert r.kept[|s.kept|] == e.backup; }
        if !e.dist.Whole? && !e.backup.Whole? { assert forall k | 0 <= k < |r.kept| :: !r.kept[k].Whole?; }
      }
      if s.dist.Whole? { LostExactly(Built(s, a), a.plan); } else { BroughtExactly(Built(s, a), a.plan); }
    }
  }

  /** Where the live tree is not whole, what the restart leaves behind is whole exactly if it is the new one. */
  lemma BroughtExactly(d: Disk, plan: Plan)
    requires Starts(d) && !d.dist.Whole?
    ensures Survives(Promote(d, plan).0) <==> Brings(d.dist, plan)
  {
  }

  ghost predicate LosesAt(s: Site, attempts: seq<Attempt>, k: nat)
    requires k < |attempts|
  {
    Loses(RedeployAll(s, attempts[..k]), attempts[k])
  }

  ghost predicate BringsAt(s: Site, attempts: seq<Attempt>, k: nat)
    requires k < |attempts|
  {
    Brings(RedeployAll(s, attempts[..k]).dist, attempts[k].plan)
  }

  /** Some restart loses the last whole trees, and none after it brings a new one. */
  ghost predicate LostForGood(s: Site, attempts: seq<Attempt>) {
    exists k {:trigger LosesAt(s, attempts, k)} :: 0 <= k < |attempts| && LosesAt(s, attempts, k)
      && forall j {:trigger BringsAt(s, attempts, j)} | k < j < |attempts| :: !BringsAt(s, attempts, j)
  }

  lemma LostOneMore(s: Site, attempts: seq<Attempt>)
    requires attempts != []
    ensures var n := |attempts| - 1;
            LostForGood(s, attempts) <==>
              LosesAt(s, attempts, n) || (LostForGood(s, attempts[..n]) && !BringsAt(s, attempts, n))
  {
    hide Loses, Brings, RedeployAll;
    var n, init := |attempts| - 1, attempts[..|attempts| - 1];
    forall k | 0 <= k < n
      ensures LosesAt(s, init, k) == LosesAt(s, attempts, k) && BringsAt(s, init, k) == BringsAt(s, attempts, k)
    {
      assert init[..k] == attempts[..k];
    }
    if LostForGood(s, attempts) && !LosesAt(s, attempts, n) {
      var k :| 0 <= k < |attempts| && LosesAt(s, attempts, k)
               && forall j {:trigger BringsAt(s, attempts, j)} | k < j < |attempts| :: !BringsAt(s, attempts, j);
      assert LosesAt(s, init, k);
    }
    if LostForGood(s, init) && !BringsAt(s, attempts, n) {
      var k :| 0 <= k < |init| && LosesAt(s, init, k)
               && forall j {:trigger BringsAt(s, init, j)} | k < j < |init| :: !BringsAt(s, init, j);
      assert LosesAt(s, attempts, k);
      forall j | k < j < |attempts| ensures !BringsAt(s, attempts, j) { assert j < n ==> !BringsAt(s, init, j); }
    }
  }

  /** Through any number of restarts with any faults there is no whole tree left, at the live path or at a backup
      path, exactly if one of them was interrupted late and lost the last whole ones, and none after it has
      brought a new one. */
  lemma {:induction false} LostInRestartsExactly(s: Site, attempts: seq<Attempt>)
    requires Servable(s)
    ensures !Servable(RedeployAll(s, attempts)) <==> LostForGood(s, attempts)
  {
    hide Loses, Brings, Servable, Redeploy, LostForGood;
    if attempts == [] {
      NothingLost(s);
    } else {
      var n := |attempts| - 1;
      LostInRestartsExactly(s, attempts[..n]);
      ServableStep(RedeployAll(s, attempts[..n]), attempts[n]);
      LostOneMore(s, attempts);
      ServableLoses(RedeployAll(s, attempts[..n]), attempts[n]);
    }
  }

  lemma ServableLoses(s: Site, a: Attempt)
    ensures Loses(s, a) ==> Servable(s)
  {
  }

  lemma NothingLost(s: Site)
    ensures !LostForGood(s, [])
  {
  }

  /** The version that the last successful restart brought. */
  function Current(first: nat, attempts: seq<Attempt>): nat {
    if attempts == [] then first
    else
      var last := attempts[|attempts| - 1];
      if last.plan.fault.Nowhere? then last.version else Current(first, attempts[..|attempts| - 1])
  }

  ghost predicate Restored(s: Site, attempts: seq<Attempt>, k: nat)
    requires k < |attempts|
  {
    !Promote(Built(RedeployAll(s, attempts[..k]), attempts[k]), attempts[k].plan).1.NotRestored?
  }

  /** As long as no error said that the way back failed, the live tree is complete and is that of the last
      restart that succeeded: a failed one leaves no trace. */
  lemma {:induction false} LiveIsCurrent(first: nat, kept: seq<Tree>, attempts: seq<Attempt>)
    requires forall a | a in attempts :: OneFault(a.plan)
    requires forall k | 0 <= k < |attempts| :: Restored(Site(Whole(first), kept), attempts, k)
    ensures RedeployAll(Site(Whole(first), kept), attempts).dist == Whole(Current(first, attempts))
  {
    if attempts != [] {
      var s := Site(Whole(first), kept);
      var init, last := attempts[..|attempts| - 1], attempts[|attempts| - 1];
      forall k | 0 <= k < |init| ensures Restored(s, init, k) {
        assert Restored(s, attempts, k) && init[..k] == attempts[..k];
      }
      LiveIsCurrent(first, kept, init);
      assert Restored(s, attempts, |attempts| - 1);
      PromotionIsAtomic(Built(RedeployAll(s, init), last), last.plan);
    }
  }

  // ------------------------------------------------------------------ the method

  class ServiceLauncher {
    var dist: Tree
    var build: Tree
    var backup: Tree
    const configured: bool

    constructor (configured: bool, d: Disk)
      ensures View() == d && this.configured == configured
    {
      this.configured := configured;
      dist, build, backup := d.dist, d.build, d.backup;
    }

    ghost function View(): Disk
      reads this
    {
      Disk(dist, build, backup)
    }

    /** `Path.replace` between two of the paths. */
    method MoveAside() returns (failed: bool)
      modifies this`dist, this`backup
      ensures failed <==> old(dist).Absent? || !old(backup).Absent?
      ensures View() == if failed then old(View()) else Disk(Absent, build, old(dist))
    {
      failed := dist.Absent? || !backup.Absent?;
      if !failed { dist, backup := Absent, dist; }
    }

    method Place() returns (failed: bool)
      modifies this`dist, this`build
      ensures failed <==> old(build).Absent? || !old(dist).Absent?
      ensures View() == if failed then old(View()) else Disk(old(build), Absent, backup)
    {
      failed := build.Absent? || !dist.Absent?;
      if !failed { dist, build := build, Absent; }
    }

    method MoveBack() returns (failed: bool)
      modifies this`dist, this`backup
      ensures failed <==> old(backup).Absent? || !old(dist).Absent?
      ensures View() == if failed then old(View()) else Disk(old(backup), build, Absent)
    {
      failed := backup.Absent? || !dist.Absent?;
      if !failed { dist, backup := backup, Absent; }
    }

    method PromoteFrontend(built: bool, plan: Plan) returns (outcome: Outcome)
      modifies this
      ensures !built ==> outcome.NothingToDo? && View() == old(View())
      ensures built && !configured ==>
                outcome.NotConfigured? && View() == old(View()).(build := Remove(old(build), plan.cleanBuild))
      ensures built && configured ==> (View(), outcome) == Promote(old(View()), plan)
    {
      if !built { return NothingToDo; }
      if !configured {
        build := Remove(build, plan.cleanBuild);
        return NotConfigured;
      }
      var promoted := false;
      var error := TryRenames(plan.fault);
      if error.None? || (error.value.Interruption? && plan.fault.AfterPromoted?) { promoted := true; }
      outcome := Promoted;
      if error.Some? { outcome := Recover(error.value, plan); }
      if !promoted && !build.Absent? { build := Remove(build, plan.cleanBuild); }
      if promoted && !backup.Absent? { backup := Remove(backup, plan.cleanBackup); }
    }

    method TryRenames(fault: Fault) returns (error: Option<Outcome>)
      modifies this
      ensures View() == Try(old(View()), fault).disk && error == Try(old(View()), fault).error
      ensures Try(old(View()), fault).promoted <==> error.None? || (error.value.Interruption? && fault.AfterPromoted?)
    {
      if fault.BeforeFirst? { return Some(Interruption); }
      if !dist.Absent? {
        if fault.FirstFails? { return Some(NotPromoted(false)); }
        var failed := MoveAside();
        if failed { return Some(NotPromoted(false)); }
      }
      if fault.AfterFirst? { return Some(Interruption); }
      if fault.SecondFails? { return Some(NotPromoted(false)); }
      var failed := Place();
      if failed { return Some(NotPromoted(false)); }
      error := if fault.AfterSecond? || fault.AfterPromoted? then Some(Interruption) else None;
    }

    method Recover(error: Outcome, plan: Plan) returns (outcome: Outcome)
      modifies this
      ensures (View(), outcome) == Handle(old(View()), error, plan)
    {
      if !backup.Absent? {
        if !dist.Absent? {
          dist := Remove(dist, plan.removal);
          if plan.removal.Interrupted? { return Interruption; }
        }
        if plan.restoring.StoppedBefore? { return Interruption; }
        if plan.restoring.RestoreFails? { return NotRestored; }
        var failed := MoveBack();
        if failed { return NotRestored; }
        if plan.restoring.StoppedAfter? { return Interruption; }
        return if error.NotPromoted? then NotPromoted(true) else error;
      }
      outcome := if error.NotPromoted? then NotPromoted(!dist.Absent?) else error;
    }
  }
}
