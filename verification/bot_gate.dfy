/** The reference-counted gates of backend/claude_hub/api/feishu_bot.py: one asyncio lock per Bot,
    created on first use and dropped when its last user leaves.

    The machine is written over any type `G` of gate objects, so that the class at the end can use
    object references for them. */
module BotGate {

  const MAX_GATES := 256

  datatype Gate = Gate(locked: bool, users: int)

  /** Where a coroutine is in `async with _gate(bot_id)`: awaiting the lock, inside, or on its way out. */
  datatype Phase = Waiting | Holding | Leaving

  datatype Task<+G> = Task(bot: string, gate: G, phase: Phase)

  datatype State<!G> = State(registry: map<string, G>, gates: map<G, Gate>, tasks: map<nat, Task<G>>)

  /** `Enters` names the object made if the Bot has none; `GivesUp` is a timeout or a cancellation. */
  datatype Step<+G> = Enters(task: nat, bot: string, made: G) | Acquires(task: nat) | GivesUp(task: nat)
    | Releases(task: nat) | Leaves(task: nat)

  // ------------------------------------------------------------------ the operations

  /** `_enter_gate_registry` refuses when the Bot has no gate and there are too many. */
  predicate Refuses<G(==)>(s: State<G>, bot: string) { bot !in s.registry && |s.registry| >= MAX_GATES }

  ghost predicate Rooted<G>(s: State<G>) {
    && (forall b | b in s.registry :: s.registry[b] in s.gates)
    && (forall u | u in s.tasks :: s.tasks[u].gate in s.gates)
  }

  function Enter<G(==)>(s: State<G>, u: nat, bot: string, made: G): State<G>
    requires Rooted(s) && !Refuses(s, bot)
  {
    var g := if bot in s.registry then s.registry[bot] else made;
    var users := if bot in s.registry then s.gates[g].users else 0;
    var locked := bot in s.registry && s.gates[g].locked;
    State(s.registry[bot := g], s.gates[g := Gate(locked, users + 1)], s.tasks[u := Task(bot, g, Waiting)])
  }

  function Move<G(==)>(s: State<G>, u: nat, phase: Phase): State<G>
    requires u in s.tasks
  {
    s.(tasks := s.tasks[u := s.tasks[u].(phase := phase)])
  }

  function SetLock<G(==)>(s: State<G>, g: G, locked: bool): State<G>
    requires g in s.gates
  {
    s.(gates := s.gates[g := s.gates[g].(locked := locked)])
  }

  /** `_leave_gate_registry` */
  function Leave<G(==)>(s: State<G>, u: nat): State<G>
    requires Rooted(s) && u in s.tasks
  {
    var t := s.tasks[u];
    var users := s.gates[t.gate].users - 1;
    State(if users <= 0 && t.bot in s.registry && s.registry[t.bot] == t.gate then s.registry - {t.bot} else s.registry,
          s.gates[t.gate := s.gates[t.gate].(users := users)],
          s.tasks - {u})
  }

  ghost predicate Enabled<G>(s: State<G>, step: Step<G>) {
    && Rooted(s)
    && match step
       case Enters(u, bot, made) => u !in s.tasks && made !in s.gates && !Refuses(s, bot)
       case Acquires(u) => u in s.tasks && s.tasks[u].phase.Waiting? && !s.gates[s.tasks[u].gate].locked
       case GivesUp(u) => u in s.tasks && s.tasks[u].phase.Waiting?
       case Releases(u) => u in s.tasks && s.tasks[u].phase.Holding?
       case Leaves(u) => u in s.tasks && s.tasks[u].phase.Leaving?
  }

  ghost function Next<G>(s: State<G>, step: Step<G>): State<G>
    requires Enabled(s, step)
  {
    match step
    case Enters(u, bot, made) => Enter(s, u, bot, made)
    case Acquires(u) => SetLock(Move(s, u, Holding), s.tasks[u].gate, true)
    case GivesUp(u) => Move(s, u, Leaving)
    case Releases(u) => SetLock(Move(s, u, Leaving), s.tasks[u].gate, false)
    case Leaves(u) => Leave(s, u)
  }

  // ------------------------------------------------------------------ the invariant

  ghost function Users<G>(s: State<G>, g: G): set<nat> { set u | u in s.tasks && s.tasks[u].gate == g }

  ghost function Holders<G>(s: State<G>, g: G): set<nat> {
    set u | u in s.tasks && s.tasks[u].gate == g && s.tasks[u].phase.Holding?
  }

  /** The count is exact, and the lock is held by exactly one task or by none. */
  ghost predicate Counted<G>(s: State<G>, g: G)
    requires g in s.gates
  {
    && s.gates[g].users == |Users(s, g)|
    && |Holders(s, g)| == (if s.gates[g].locked then 1 else 0)
  }

  /** A task uses the gate its Bot is registered with. */
  ghost predicate Shares<G>(s: State<G>, u: nat)
    requires u in s.tasks
  {
    s.tasks[u].bot in s.registry && s.registry[s.tasks[u].bot] == s.tasks[u].gate
  }

  ghost predicate InUse<G>(s: State<G>, bot: string)
    requires bot in s.registry
  {
    exists u :: u in s.tasks && s.tasks[u].bot == bot
  }

  ghost predicate Inv<G>(s: State<G>) {
    && Rooted(s) && |s.registry| <= MAX_GATES
    && (forall g {:trigger Counted(s, g)} | g in s.gates :: Counted(s, g))
    && (forall u {:trigger Shares(s, u)} | u in s.tasks :: Shares(s, u))
    && (forall b {:trigger InUse(s, b)} | b in s.registry :: InUse(s, b))
    && (forall a, b {:trigger s.registry[a], s.registry[b]} | a in s.registry && b in s.registry
        && s.registry[a] == s.registry[b] :: a == b)
  }

  lemma NobodyUses<G>(s: State<G>, g: G)
    requires Rooted(s) && g !in s.gates
    ensures Users(s, g) == {} && Holders(s, g) == {}
  {
  }

  lemma EnterCounts<G>(s: State<G>, u: nat, bot: string, made: G, h: G)
    requires Rooted(s) && u !in s.tasks && !Refuses(s, bot) && (bot !in s.registry ==> made !in s.gates)
    requires h in Enter(s, u, bot, made).gates && (h in s.gates ==> Counted(s, h))
    ensures Counted(Enter(s, u, bot, made), h)
  {
    var r := Enter(s, u, bot, made);
    EnterUsers(s, r, u, r.registry[bot], bot, h);
    if h !in s.gates { NobodyUses(s, h); }
  }

  lemma EnterUsers<G>(s: State<G>, r: State<G>, u: nat, g: G, bot: string, h: G)
    requires u !in s.tasks && r.tasks == s.tasks[u := Task(bot, g, Waiting)]
    ensures Holders(r, h) == Holders(s, h)
    ensures Users(r, h) == if h == g then Users(s, h) + {u} else Users(s, h)
    ensures h == g ==> |Users(r, h)| == |Users(s, h)| + 1
  {
    assert Users(r, h) == if h == g then Users(s, h) + {u} else Users(s, h);
    assert u !in Users(s, h);
  }

  lemma EnterKeeps<G>(s: State<G>, u: nat, bot: string, made: G)
    requires Inv(s) && u !in s.tasks && !Refuses(s, bot) && (bot !in s.registry ==> made !in s.gates)
    ensures Inv(Enter(s, u, bot, made))
  {
    hide Users, Holders, Counted;
    var r := Enter(s, u, bot, made);
    forall h | h in r.gates ensures Counted(r, h) {
      assert h in s.gates ==> Counted(s, h);
      EnterCounts(s, u, bot, made, h);
    }
    forall v | v in r.tasks ensures Shares(r, v) { if v != u { assert Shares(s, v); } }
    forall b | b in r.registry ensures InUse(r, b) {
      if b == bot {
        assert u in r.tasks && r.tasks[u].bot == bot;
      } else {
        assert InUse(s, b);
        var v :| v in s.tasks && s.tasks[v].bot == b;
        assert v in r.tasks && r.tasks[v].bot == b;
      }
    }
  }

  /** A change of phase, with the lock following the holders. */
  ghost predicate Fits<G>(s: State<G>, u: nat, phase: Phase, locked: bool)
    requires Rooted(s) && u in s.tasks
  {
    var before := s.gates[s.tasks[u].gate].locked;
    && (phase.Holding? ==> locked && !before)
    && (s.tasks[u].phase.Holding? ==> before && !locked)
    && (!phase.Holding? && !s.tasks[u].phase.Holding? ==> locked == before)
  }

  lemma PhaseCounts<G>(s: State<G>, u: nat, phase: Phase, locked: bool, h: G)
    requires Rooted(s) && u in s.tasks && h in s.gates && Fits(s, u, phase, locked) && Counted(s, h)
    ensures Counted(SetLock(Move(s, u, phase), s.tasks[u].gate, locked), h)
  {
    var g := s.tasks[u].gate;
    var r := SetLock(Move(s, u, phase), g, locked);
    assert Users(r, h) == Users(s, h);
    if h != g {
      assert Holders(r, h) == Holders(s, h);
    } else if phase.Holding? {
      assert Holders(r, h) == Holders(s, h) + {u} && u !in Holders(s, h);
    } else if s.tasks[u].phase.Holding? {
      assert Holders(r, h) == Holders(s, h) - {u} && u in Holders(s, h);
    } else {
      assert Holders(r, h) == Holders(s, h);
    }
  }

  lemma PhaseKeeps<G>(s: State<G>, u: nat, phase: Phase, locked: bool)
    requires Inv(s) && u in s.tasks && Fits(s, u, phase, locked)
    ensures Inv(SetLock(Move(s, u, phase), s.tasks[u].gate, locked))
  {
    hide Counted, Fits;
    var r := SetLock(Move(s, u, phase), s.tasks[u].gate, locked);
    forall h | h in r.gates ensures Counted(r, h) {
      assert Counted(s, h);
      PhaseCounts(s, u, phase, locked, h);
    }
    forall v | v in r.tasks ensures Shares(r, v) { assert Shares(s, v); }
    forall b | b in r.registry ensures InUse(r, b) {
      assert InUse(s, b);
      var v :| v in s.tasks && s.tasks[v].bot == b;
      assert v in r.tasks && r.tasks[v].bot == b;
    }
  }

  lemma HeldIsLocked<G>(s: State<G>, u: nat)
    requires Inv(s) && u in s.tasks && s.tasks[u].phase.Holding?
    ensures s.gates[s.tasks[u].gate].locked
  {
    assert Counted(s, s.tasks[u].gate) && u in Holders(s, s.tasks[u].gate);
  }

  lemma LeaveKeeps<G>(s: State<G>, u: nat)
    requires Inv(s) && Enabled(s, Leaves(u))
    ensures Inv(Leave(s, u))
  {
    var r, t := Leave(s, u), s.tasks[u];
    assert Shares(s, u) && Counted(s, t.gate);
    assert u in Users(s, t.gate);
    assert Users(r, t.gate) == Users(s, t.gate) - {u};
    forall h | h in r.gates ensures Counted(r, h) {
      assert Counted(s, h);
      assert Holders(r, h) == Holders(s, h);
      if h != t.gate { assert Users(r, h) == Users(s, h); }
    }
    forall v | v in r.tasks ensures Shares(r, v) {
      assert Shares(s, v);
      if s.tasks[v].bot == t.bot { assert v in Users(r, t.gate); }
    }
    forall b | b in r.registry ensures InUse(r, b) {
      assert InUse(s, b);
      if b == t.bot {
        assert Users(r, t.gate) != {};
        var v :| v in Users(r, t.gate);
        assert Shares(s, v) && v in r.tasks && r.tasks[v].bot == b;
      } else {
        var v :| v in s.tasks && s.tasks[v].bot == b;
        assert v in r.tasks && r.tasks[v].bot == b;
      }
    }
    assert r.registry.Keys <= s.registry.Keys;
    SmallerMap(r.registry, s.registry);
  }

  lemma SmallerMap<G>(a: map<string, G>, b: map<string, G>)
    requires a.Keys <= b.Keys
    ensures |a| <= |b|
  {
    assert |a| == |a.Keys| && |b| == |b.Keys|;
    SmallerSet(a.Keys, b.Keys);
  }

  lemma SmallerSet(a: set<string>, b: set<string>)
    requires a <= b
    ensures |a| <= |b|
  {
    assert b == a + (b - a);
  }

  lemma StepKeeps<G>(s: State<G>, step: Step<G>)
    requires Inv(s) && Enabled(s, step)
    ensures Inv(Next(s, step))
  {
    hide Inv, Enter, Leave;
    InvRooted(s);
    match step
    case Enters(u, bot, made) => EnterKeeps(s, u, bot, made);
    case Acquires(u) => PhaseKeeps(s, u, Holding, true);
    case GivesUp(u) => PhaseKeeps(s, u, Leaving, s.gates[s.tasks[u].gate].locked); SameLock(s, u);
    case Releases(u) => HeldIsLocked(s, u); PhaseKeeps(s, u, Leaving, false);
    case Leaves(u) => LeaveKeeps(s, u);
  }

  lemma InvRooted<G>(s: State<G>)
    requires Inv(s)
    ensures Rooted(s)
  {
  }

  lemma GateFor<G>(s: State<G>, bot: string)
    requires Inv(s) && bot in s.registry
    ensures s.registry[bot] in s.gates
  {
  }

  lemma GateOf<G>(s: State<G>, u: nat)
    requires Inv(s) && u in s.tasks
    ensures Rooted(s) && s.tasks[u].gate in s.gates
  {
  }

  lemma SameLock<G>(s: State<G>, u: nat)
    requires Rooted(s) && u in s.tasks
    ensures SetLock(Move(s, u, Leaving), s.tasks[u].gate, s.gates[s.tasks[u].gate].locked) == Move(s, u, Leaving)
  {
    var g := s.tasks[u].gate;
    assert s.gates[g := s.gates[g].(locked := s.gates[g].locked)] == s.gates;
  }

  // ------------------------------------------------------------------ runs

  ghost predicate Leads<G>(s: State<G>, r: State<G>, step: Step<G>) { Enabled(s, step) && r == Next(s, step) }

  /** A run, with the step that led to each state but the first. */
  ghost predicate Run<G>(run: seq<State<G>>, steps: seq<Step<G>>) {
    && |run| == |steps| + 1 && run[0].registry == map[] && run[0].tasks == map[] && run[0].gates == map[]
    && forall k | 0 <= k < |steps| :: Leads(run[k], run[k + 1], steps[k])
  }

  lemma {:induction false} RunKeeps<G>(run: seq<State<G>>, steps: seq<Step<G>>, k: nat)
    requires Run(run, steps) && k < |run|
    ensures Inv(run[k])
  {
    hide Next, Enabled, Inv;
    if k == 0 {
      EmptyInv(run[0]);
    } else {
      RunKeeps(run, steps, k - 1);
      assert Leads(run[k - 1], run[k - 1 + 1], steps[k - 1]);
      StepKeeps(run[k - 1], steps[k - 1]);
    }
  }

  lemma EmptyInv<G>(s: State<G>)
    requires s.registry == map[] && s.tasks == map[] && s.gates == map[]
    ensures Inv(s)
  {
  }

  /** At no time do two coroutines hold the critical section of one Bot, however entering, acquiring,
      timing out, releasing and leaving interleave. */
  lemma MutualExclusion<G>(run: seq<State<G>>, steps: seq<Step<G>>, k: nat, u: nat, v: nat)
    requires Run(run, steps) && k < |run| && u in run[k].tasks && v in run[k].tasks
    requires run[k].tasks[u].bot == run[k].tasks[v].bot
    requires run[k].tasks[u].phase.Holding? && run[k].tasks[v].phase.Holding?
    ensures u == v
  {
    RunKeeps(run, steps, k);
    var s := run[k];
    assert Shares(s, u) && Shares(s, v);
    var g := s.tasks[u].gate;
    assert Counted(s, g);
    assert {u, v} <= Holders(s, g);
    if u != v { TwoAtMost(u, v, Holders(s, g)); }
  }

  lemma TwoAtMost(u: nat, v: nat, a: set<nat>)
    requires {u, v} <= a && u != v
    ensures |a| >= 2
  {
    assert a == {u, v} + (a - {u, v});
    assert |{u, v}| == 2;
  }

  /** All tasks of a Bot share its one entry, whose count is the number of them, at least one; entries of
      different Bots are different; and there are never more than 256. */
  lemma ExactRegistry<G>(run: seq<State<G>>, steps: seq<Step<G>>, k: nat, bot: string)
    requires Run(run, steps) && k < |run|
    ensures var s := run[k];
            var mine := set u | u in s.tasks && s.tasks[u].bot == bot;
            && |s.registry| <= 256
            && (bot in s.registry <==> mine != {})
            && (bot in s.registry ==>
                  && s.registry[bot] in s.gates && s.gates[s.registry[bot]].users == |mine| >= 1
                  && (forall u | u in mine :: s.tasks[u].gate == s.registry[bot])
                  && (forall b | b in s.registry && b != bot :: s.registry[b] != s.registry[bot]))
  {
    RunKeeps(run, steps, k);
    var s := run[k];
    var mine := set u | u in s.tasks && s.tasks[u].bot == bot;
    forall u | u in mine ensures bot in s.registry && s.tasks[u].gate == s.registry[bot] { assert Shares(s, u); }
    if bot in s.registry {
      var g := s.registry[bot];
      assert InUse(s, bot) && Counted(s, g);
      var v :| v in s.tasks && s.tasks[v].bot == bot;
      assert v in mine;
      forall u | u in Users(s, g) ensures u in mine { assert Shares(s, u); }
      assert Users(s, g) == mine;
      assert {v} <= mine;
      assert mine == {v} + (mine - {v});
    }
  }

  /** A lock that is free while somebody waits for it can be taken: no holder is ever forgotten. */
  lemma LockedMeansHeld<G>(run: seq<State<G>>, steps: seq<Step<G>>, k: nat, u: nat)
    requires Run(run, steps) && k < |run| && u in run[k].tasks && run[k].tasks[u].phase.Waiting?
    ensures var s := run[k];
            && s.tasks[u].gate in s.gates
            && (Enabled(s, Acquires(u)) <==>
                !exists v :: v in s.tasks && s.tasks[v].bot == s.tasks[u].bot && s.tasks[v].phase.Holding?)
  {
    RunKeeps(run, steps, k);
    var s := run[k];
    var g := s.tasks[u].gate;
    assert Shares(s, u) && Counted(s, g);
    if s.gates[g].locked {
      assert Holders(s, g) != {};
      var v :| v in Holders(s, g);
      assert Shares(s, v);
    }
    forall v | v in s.tasks && s.tasks[v].bot == s.tasks[u].bot && s.tasks[v].phase.Holding? ensures s.gates[g].locked {
      assert Shares(s, v);
      HeldIsLocked(s, v);
    }
  }

  /** The Bots that anybody uses. */
  ghost function BotsInUse<G>(s: State<G>): set<string> { set u | u in s.tasks :: s.tasks[u].bot }

  /** A coroutine is refused exactly if 256 other Bots are in use. */
  lemma RefusedExactly<G>(run: seq<State<G>>, steps: seq<Step<G>>, k: nat, bot: string)
    requires Run(run, steps) && k < |run|
    ensures Refuses(run[k], bot) <==> bot !in BotsInUse(run[k]) && |BotsInUse(run[k])| == 256
  {
    RunKeeps(run, steps, k);
    var s := run[k];
    forall u | u in s.tasks ensures s.tasks[u].bot in s.registry { assert Shares(s, u); }
    forall b | b in s.registry ensures b in BotsInUse(s) { assert InUse(s, b); }
    assert s.registry.Keys == BotsInUse(s);
    assert |s.registry| == |s.registry.Keys|;
  }

  /** What each step does to the coroutines: one that enters waits at the gate of its Bot, whether that is new or
      not; one that acquires holds; one that times out or releases leaves; and one that has left is gone.  Nobody
      else is moved. */
  lemma StepsExactly<G>(s: State<G>, step: Step<G>, u: nat)
    requires Enabled(s, step) && u == step.task
    ensures var r := Next(s, step);
            && (forall v | v != u :: (v in r.tasks <==> v in s.tasks) && (v in s.tasks ==> r.tasks[v] == s.tasks[v]))
            && (step.Enters? ==>
                  && u in r.tasks && r.tasks[u].bot == step.bot && r.tasks[u].phase.Waiting?
                  && r.tasks[u].gate == (if step.bot in s.registry then s.registry[step.bot] else step.made)
                  && step.bot in r.registry && r.registry[step.bot] == r.tasks[u].gate)
            && (step.Acquires? ==> u in r.tasks && r.tasks[u] == s.tasks[u].(phase := Holding))
            && (step.GivesUp? || step.Releases? ==> u in r.tasks && r.tasks[u] == s.tasks[u].(phase := Leaving))
            && (step.Leaves? ==> u !in r.tasks)
  {
  }

  /** A coroutine can take every step that its phase is for, the lock if it is free, so nobody is kept for ever. */
  lemma CanGoOn<G>(run: seq<State<G>>, steps: seq<Step<G>>, k: nat, u: nat)
    requires Run(run, steps) && k < |run| && u in run[k].tasks
    ensures match run[k].tasks[u].phase
            case Waiting => Enabled(run[k], GivesUp(u))
            case Holding => Enabled(run[k], Releases(u))
            case Leaving => Enabled(run[k], Leaves(u))
  {
    RunKeeps(run, steps, k);
  }

  // ------------------------------------------------------------------ the registry in place

  /** `_BotGate` with the state of its lock. */
  class BotGate {
    var locked: bool
    var users: int

    constructor ()
      ensures !locked && users == 0
    {
      locked, users := false, 0;
    }
  }

  class GateRegistry {
    var botGates: map<string, BotGate>
    ghost var known: set<BotGate>
    ghost var tasks: map<nat, Task<BotGate>>

    ghost function View(): State<BotGate>
      reads this, known
    {
      State(botGates, Gates(), tasks)
    }

    ghost function Gates(): map<BotGate, Gate>
      reads this`known, known
    {
      map g | g in known :: Gate(g.locked, g.users)
    }

    /** One gate object changed. */
    method Update(entry: BotGate, locked: bool, users: int)
      requires entry in known
      modifies entry
      ensures entry.locked == locked && entry.users == users
      ensures Gates() == old(Gates())[entry := Gate(locked, users)]
    {
      entry.locked, entry.users := locked, users;
    }

    constructor ()
      ensures fresh(this) && known == {} && View() == State(map[], map[], map[])
    {
      botGates, known, tasks := map[], {}, map[];
    }

    ghost predicate Valid()
      reads this, known
    {
      Inv(View())
    }

    method MakeGate() returns (entry: BotGate)
      modifies this`known
      ensures fresh(entry) && known == old(known) + {entry}
      ensures Gates() == old(Gates())[entry := Gate(false, 0)]
    {
      entry := new BotGate();
      known := known + {entry};
    }

    /** The entry of a Bot, made if there is none and room for one. */
    method Obtain(botId: string) returns (entry: BotGate?)
      requires botId in botGates ==> botGates[botId] in Gates()
      modifies this`botGates, this`known
      ensures entry == null <==> botId !in old(botGates) && |old(botGates)| >= MAX_GATES
      ensures entry == null ==> botGates == old(botGates) && known == old(known)
      ensures entry != null ==>
                && botGates == old(botGates)[botId := entry] && known == old(known) + {entry}
                   && (if botId in old(botGates) then entry in old(known) else fresh(entry))
                && (botId in old(botGates) ==> entry == old(botGates)[botId])
                && Gates() == (if botId in old(botGates) then old(Gates()) else old(Gates())[entry := Gate(false, 0)])
                && entry in Gates() && Gates()[entry] == Gate(entry.locked, entry.users)
    {
      if botId in botGates {
        entry := botGates[botId];
        assert known == old(known) + {entry};
        return;
      }
      if |botGates| >= MAX_GATES { return null; }
      entry := MakeGate();
      botGates := botGates[botId := entry];
    }

    static lemma Refusing(s: State<BotGate>, bot: string)
      ensures Refuses(s, bot) <==> bot !in s.registry && |s.registry| >= MAX_GATES
    {
    }

    static lemma Entered(was: State<BotGate>, before: map<BotGate, Gate>, after: State<BotGate>, u: nat, botId: string,
                         entry: BotGate)
      requires Rooted(was) && !Refuses(was, botId) && (botId in was.registry ==> entry == was.registry[botId])
      requires before == if botId in was.registry then was.gates else was.gates[entry := Gate(false, 0)]
      requires entry in before && after.registry == was.registry[botId := entry]
      requires after.gates == before[entry := Gate(before[entry].locked, before[entry].users + 1)]
      requires after.tasks == was.tasks[u := Task(botId, entry, Waiting)]
      ensures after == Enter(was, u, botId, entry)
    {
    }

    /** `_enter_gate_registry`; null stands for the 503. */
    method EnterRegistry(botId: string, ghost u: nat) returns (entry: BotGate?)
      requires Valid() && u !in tasks
      modifies this, known
      ensures entry == null <==> old(Refuses(View(), botId))
      ensures entry == null ==> View() == old(View()) && known == old(known)
      ensures entry != null ==>
                && known == old(known) + {entry}
                   && (if botId in old(botGates) then entry in old(known) else fresh(entry))
                && View() == Enter(old(View()), u, botId, entry)
      ensures Valid()
    {
      hide Inv, Rooted, Enter, Refuses, Gates;
      ghost var was := View();
      InvRooted(was);
      if botId in was.registry { GateFor(was, botId); }
      assert Refuses(was, botId) <==> botId !in botGates && |botGates| >= MAX_GATES by { Refusing(was, botId); }
      entry := Obtain(botId);
      if entry == null { return; }
      ghost var before := Gates();
      Update(entry, entry.locked, entry.users + 1);
      tasks := tasks[u := Task(botId, entry, Waiting)];
      Entered(was, before, View(), u, botId, entry);
      EnterKeeps(was, u, botId, entry);
    }

    /** The entry goes when its last user has left and it is still the one registered. */
    method Forget(botId: string, entry: BotGate)
      modifies this`botGates
      ensures botGates == if entry.users <= 0 && botId in old(botGates) && old(botGates)[botId] == entry
                          then old(botGates) - {botId} else old(botGates)
    {
      if entry.users <= 0 && botId in botGates && botGates[botId] == entry {
        botGates := botGates - {botId};
      }
    }

    static lemma Left(was: State<BotGate>, after: State<BotGate>, u: nat, botId: string, entry: BotGate, users: int)
      requires Rooted(was) && u in was.tasks && was.tasks[u].bot == botId && was.tasks[u].gate == entry
      requires users == was.gates[entry].users - 1
      requires after.registry == if users <= 0 && botId in was.registry && was.registry[botId] == entry
                                 then was.registry - {botId} else was.registry
      requires after.gates == was.gates[entry := Gate(was.gates[entry].locked, users)] && after.tasks == was.tasks - {u}
      ensures after == Leave(was, u)
    {
    }

    /** `_leave_gate_registry` */
    method LeaveRegistry(botId: string, entry: BotGate, ghost u: nat)
      requires Valid() && u in tasks && tasks[u] == Task(botId, entry, Leaving)
      modifies this, known
      ensures Valid() && known == old(known)
      ensures View() == Leave(old(View()), u)
    {
      hide Inv, Rooted, Leave;
      ghost var was := View();
      GateOf(was, u);
      LeaveKeeps(was, u);
      assert entry in known && was.gates[entry] == Gate(entry.locked, entry.users);
      Update(entry, entry.locked, entry.users - 1);
      Forget(botId, entry);
      tasks := tasks - {u};
      Left(was, View(), u, botId, entry, entry.users);
    }

    /** The lock is handed to a waiting coroutine. */
    method AcquireLock(entry: BotGate, ghost u: nat)
      requires Valid() && u in tasks && tasks[u].gate == entry && tasks[u].phase.Waiting? && !entry.locked
      modifies this, known
      ensures Valid() && known == old(known)
      ensures Enabled(old(View()), Acquires(u)) && View() == Next(old(View()), Acquires(u))
    {
      ghost var was := View();
      assert entry in was.gates;
      StepKeeps(was, Acquires(u));
      Update(entry, true, entry.users);
      tasks := tasks[u := tasks[u].(phase := Holding)];
      assert View() == Next(was, Acquires(u));
    }

    method ReleaseLock(entry: BotGate, ghost u: nat)
      requires Valid() && u in tasks && tasks[u].gate == entry && tasks[u].phase.Holding?
      modifies this, known
      ensures Valid() && known == old(known)
      ensures Enabled(old(View()), Releases(u)) && View() == Next(old(View()), Releases(u))
    {
      ghost var was := View();
      assert entry in was.gates;
      StepKeeps(was, Releases(u));
      Update(entry, false, entry.users);
      tasks := tasks[u := tasks[u].(phase := Leaving)];
      assert View() == Next(was, Releases(u));
    }
  }
}
