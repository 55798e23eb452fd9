/** The import-cycle ratchet of scripts/check_ai_metrics.py: Tarjan's algorithm over the runtime
    import graph, and the comparison of its result with a baseline of accepted cycles.

    `CycleFinder` is the closure of `_cyclic_components`: its fields are the dictionaries, the stack
    and the list the nested `visit` mutates.  Sets are iterated in an arbitrary order, which covers
    every order Python may choose. */
module ImportCycles {

  type Name = string
  type Graph = map<Name, set<Name>>

  /** Every edge stays inside the key set. */
  ghost predicate Closed(g: Graph) {
    forall m, d :: m in g && d in g[m] ==> d in g
  }

  // ------------------------------------------------------------------ reachability

  ghost predicate IsPath(g: Graph, p: seq<Name>) {
    && |p| > 0
    && (forall i | 0 <= i < |p| :: p[i] in g)
    && (forall i | 0 < i < |p| :: p[i] in g[p[i - 1]])
  }

  ghost predicate Connects(g: Graph, p: seq<Name>, x: Name, y: Name) {
    IsPath(g, p) && p[0] == x && p[|p| - 1] == y
  }

  ghost predicate Reach(g: Graph, x: Name, y: Name) {
    exists p :: Connects(g, p, x, y)
  }

  /** A directed cycle through `x`: at least one edge, back to where it began. */
  ghost predicate OnCycle(g: Graph, x: Name) {
    exists p :: Connects(g, p, x, x) && |p| > 1
  }

  lemma ReachSelf(g: Graph, x: Name)
    requires x in g
    ensures Reach(g, x, x)
  {
    assert Connects(g, [x], x, x);
  }

  lemma ReachEdge(g: Graph, x: Name, y: Name)
    requires x in g && y in g && y in g[x]
    ensures Reach(g, x, y)
  {
    assert Connects(g, [x, y], x, y);
  }

  lemma Join(g: Graph, p: seq<Name>, q: seq<Name>, x: Name, y: Name, z: Name)
    requires Connects(g, p, x, y) && Connects(g, q, y, z)
    ensures Connects(g, p + q[1..], x, z)
  {
    var r := p + q[1..];
    forall i | 0 < i < |r| ensures r[i] in g[r[i - 1]] {
      if i >= |p| {
        assert r[i] == q[i - |p| + 1] && r[i - 1] == q[i - |p|];
      }
    }
    assert r[|r| - 1] == z;
  }

  lemma ReachTrans(g: Graph, x: Name, y: Name, z: Name)
    requires Reach(g, x, y) && Reach(g, y, z)
    ensures Reach(g, x, z)
  {
    var p :| Connects(g, p, x, y);
    var q :| Connects(g, q, y, z);
    Join(g, p, q, x, y, z);
  }

  ghost predicate ClosedUnder(g: Graph, s: set<Name>) {
    forall x, y :: x in s && x in g && y in g[x] ==> y in s
  }

  lemma {:induction false} StaysOnPath(g: Graph, s: set<Name>, p: seq<Name>, k: nat)
    requires ClosedUnder(g, s) && IsPath(g, p) && p[0] in s && k < |p|
    ensures p[k] in s
  {
    if k > 0 {
      StaysOnPath(g, s, p, k - 1);
    }
  }

  /** What a set closed under edges contains, it never lets out. */
  lemma ReachStays(g: Graph, s: set<Name>, x: Name, y: Name)
    requires ClosedUnder(g, s) && x in s && Reach(g, x, y)
    ensures y in s
  {
    var p :| Connects(g, p, x, y);
    StaysOnPath(g, s, p, |p| - 1);
  }

  // ------------------------------------------------------------------ components

  ghost predicate IsScc(g: Graph, c: set<Name>) {
    && c != {}
    && (forall x, y :: x in c && y in c ==> Reach(g, x, y))
    && (forall x, y :: x in c && Reach(g, x, y) && Reach(g, y, x) ==> y in c)
  }

  /** The components the ratchet reports: more than one module, or a module importing itself. */
  ghost predicate Cyclic(g: Graph, c: set<Name>) {
    |c| > 1 || exists x :: x in c && x in g && x in g[x]
  }

  lemma SccsMeetOnlyIfEqual(g: Graph, c: set<Name>, d: set<Name>, x: Name)
    requires IsScc(g, c) && IsScc(g, d) && x in c && x in d
    ensures c == d
  {
    forall y | y in c ensures y in d { assert Reach(g, x, y) && Reach(g, y, x); }
    forall y | y in d ensures y in c { assert Reach(g, x, y) && Reach(g, y, x); }
  }

  // ------------------------------------------------------------------ what the search maintains

  function Elements(s: seq<Name>): set<Name> { set m | m in s }

  ghost predicate Numbered(indices: map<Name, nat>) {
    && (forall m :: m in indices ==> indices[m] < |indices|)
    && (forall m, n :: m in indices && n in indices && indices[m] == indices[n] ==> m == n)
  }

  ghost predicate StackOrdered(indices: map<Name, nat>, stack: seq<Name>) {
    && (forall i | 0 <= i < |stack| :: stack[i] in indices)
    && (forall i, j | 0 <= i < j < |stack| :: indices[stack[i]] < indices[stack[j]])
  }

  /** Modules whose component has been popped. */
  ghost function Settled(indices: map<Name, nat>, stack: seq<Name>): set<Name> {
    indices.Keys - Elements(stack)
  }

  /** `gray` are the modules whose `visit` is still running.  Each reaches everything above it on the stack. */
  ghost predicate GrayReachesUp(g: Graph, stack: seq<Name>, gray: set<Name>) {
    forall i, j | 0 <= i < j < |stack| && stack[i] in gray :: Reach(g, stack[i], stack[j])
  }

  ghost predicate Witness(g: Graph, indices: map<Name, nat>, gray: set<Name>, y: Name, x: Name) {
    x in gray && x in indices && y in indices && indices[x] <= indices[y] && Reach(g, y, x)
  }

  ghost predicate HasWitness(g: Graph, indices: map<Name, nat>, gray: set<Name>, y: Name) {
    exists x :: Witness(g, indices, gray, y, x)
  }

  /** Everything on the stack reaches a gray module that was stacked no later. */
  ghost predicate ReachesGray(g: Graph, indices: map<Name, nat>, stack: seq<Name>, gray: set<Name>) {
    forall y {:trigger HasWitness(g, indices, gray, y)} :: y in stack ==> HasWitness(g, indices, gray, y)
  }

  ghost predicate NoUnvisitedSuccessor(g: Graph, indices: map<Name, nat>, gray: set<Name>) {
    forall x, y :: x in indices && x !in gray && x in g && y in g[x] ==> y in indices
  }

  ghost predicate Covered(popped: set<set<Name>>, x: Name) {
    exists c :: c in popped && x in c
  }

  ghost predicate PoppedRight(g: Graph, settled: set<Name>, popped: set<set<Name>>) {
    && (forall c :: c in popped ==> IsScc(g, c) && c <= settled)
    && (forall x {:trigger Covered(popped, x)} :: x in settled ==> Covered(popped, x))
  }

  ghost predicate Wf(g: Graph, indices: map<Name, nat>, stack: seq<Name>, gray: set<Name>, popped: set<set<Name>>) {
    && Closed(g)
    && indices.Keys <= g.Keys
    && Numbered(indices)
    && StackOrdered(indices, stack)
    && gray <= Elements(stack)
    && ClosedUnder(g, Settled(indices, stack))
    && NoUnvisitedSuccessor(g, indices, gray)
    && GrayReachesUp(g, stack, gray)
    && ReachesGray(g, indices, stack, gray)
    && PoppedRight(g, Settled(indices, stack), popped)
  }

  /** `low` is below every index of `below` that the part of the stack above `base` has an edge to. */
  ghost predicate LowBounds(g: Graph, indices: map<Name, nat>, stack: seq<Name>, base: nat, low: nat) {
    forall k, j | 0 <= j < base <= k < |stack| && stack[k] in g && stack[j] in g[stack[k]] && stack[j] in indices ::
      low <= indices[stack[j]]
  }

  /** The same while the successors `todo` of the module at `base` are still unread. */
  ghost predicate LowBoundsExcept(g: Graph, indices: map<Name, nat>, stack: seq<Name>, base: nat, todo: set<Name>,
                                  low: nat) {
    forall k, j | 0 <= j < base <= k < |stack| && stack[k] in g && stack[j] in g[stack[k]] && stack[j] in indices
                  && (k == base ==> stack[j] !in todo) ::
      low <= indices[stack[j]]
  }

  /** `low` is the index of a stacked module that `m` reaches. */
  ghost predicate LowReached(g: Graph, indices: map<Name, nat>, stack: seq<Name>, m: Name, low: nat) {
    exists k :: 0 <= k < |stack| && stack[k] in indices && indices[stack[k]] == low && Reach(g, m, stack[k])
  }

  // ------------------------------------------------------------------ the steps of visit

  lemma PushNumbered(indices: map<Name, nat>, m: Name)
    requires m !in indices && Numbered(indices)
    ensures Numbered(indices[m := |indices|])
  {
    var indices' := indices[m := |indices|];
    assert indices' - {m} == indices;
    assert |indices'| == |indices| + 1;
  }

  lemma PushSettled(indices: map<Name, nat>, stack: seq<Name>, m: Name)
    requires m !in indices && (forall x :: x in indices ==> indices[x] < |indices|) && StackOrdered(indices, stack)
    ensures StackOrdered(indices[m := |indices|], stack + [m])
    ensures Elements(stack + [m]) == Elements(stack) + {m}
    ensures Settled(indices[m := |indices|], stack + [m]) == Settled(indices, stack)
  {
    var stack' := stack + [m];
    assert stack'[|stack|] == m;
    assert forall i | 0 <= i < |stack| :: stack'[i] == stack[i] && stack[i] != m;
    assert Elements(stack') == Elements(stack) + {m} by {
      forall x | x in Elements(stack) ensures x in stack' {
        var i :| 0 <= i < |stack| && stack[i] == x;
        assert stack'[i] == x;
      }
    }
  }

  lemma PushGray(g: Graph, indices: map<Name, nat>, stack: seq<Name>, gray: set<Name>, m: Name)
    requires m in g && m !in indices && StackOrdered(indices, stack)
    requires GrayReachesUp(g, stack, gray) && ReachesGray(g, indices, stack, gray)
    requires forall x :: x in gray ==> Reach(g, x, m)
    ensures GrayReachesUp(g, stack + [m], gray + {m})
    ensures ReachesGray(g, indices[m := |indices|], stack + [m], gray + {m})
  {
    var indices', stack', gray' := indices[m := |indices|], stack + [m], gray + {m};
    ReachSelf(g, m);
    forall y | y in stack' ensures HasWitness(g, indices', gray', y) {
      if y in stack {
        assert HasWitness(g, indices, gray, y);
        var x :| Witness(g, indices, gray, y, x);
        assert Witness(g, indices', gray', y, x);
      } else {
        assert Witness(g, indices', gray', m, m);
      }
    }
  }

  /** Pushing `m` makes it gray and keeps the invariant, provided every gray module reaches it. */
  lemma Push(g: Graph, indices: map<Name, nat>, stack: seq<Name>, gray: set<Name>, popped: set<set<Name>>, m: Name)
    requires Wf(g, indices, stack, gray, popped)
    requires m in g && m !in indices
    requires forall x :: x in gray ==> Reach(g, x, m)
    ensures Wf(g, indices[m := |indices|], stack + [m], gray + {m}, popped)
    ensures Elements(stack + [m]) == Elements(stack) + {m}
    ensures Scanning(g, indices[m := |indices|], stack + [m], gray, |stack|, g[m], |indices|)
  {
    PushNumbered(indices, m);
    PushSettled(indices, stack, m);
    PushGray(g, indices, stack, gray, m);
    ReachSelf(g, m);
    assert (stack + [m])[|stack|] == m;
  }

  /** A module whose low link is below its index can leave the gray set: it reaches a module that was
      stacked earlier, and through it an earlier gray module. */
  lemma BlackenGray(g: Graph, indices: map<Name, nat>, stack: seq<Name>, gray: set<Name>, m: Name, low: nat)
    requires StackOrdered(indices, stack) && ReachesGray(g, indices, stack, gray + {m})
    requires m in indices && low < indices[m] && LowReached(g, indices, stack, m, low)
    ensures ReachesGray(g, indices, stack, gray)
  {
    var k :| 0 <= k < |stack| && stack[k] in indices && indices[stack[k]] == low && Reach(g, m, stack[k]);
    assert HasWitness(g, indices, gray + {m}, stack[k]);
    var top :| Witness(g, indices, gray + {m}, stack[k], top);
    ReachTrans(g, m, stack[k], top);
    forall y | y in stack ensures HasWitness(g, indices, gray, y) {
      assert HasWitness(g, indices, gray + {m}, y);
      var x :| Witness(g, indices, gray + {m}, y, x);
      if x == m {
        ReachTrans(g, y, m, top);
        assert Witness(g, indices, gray, y, top);
      } else {
        assert Witness(g, indices, gray, y, x);
      }
    }
  }

  lemma Blacken(g: Graph, indices: map<Name, nat>, stack: seq<Name>, gray: set<Name>, popped: set<set<Name>>,
                base: nat, low: nat)
    requires base < |stack| && stack[base] in indices
    requires Wf(g, indices, stack, gray + {stack[base]}, popped)
    requires Scanning(g, indices, stack, gray, base, {}, low) && low < indices[stack[base]]
    ensures Wf(g, indices, stack, gray, popped)
    ensures LowOk(g, indices, stack, stack[base], base, low)
  {
    BlackenGray(g, indices, stack, gray, stack[base], low);
  }

  /** The state of a visit of the module at `base` with the successors `todo` still to read: its low
      link is reached, and bounds every edge read so far from the upper part of the stack to the lower. */
  ghost predicate Scanning(g: Graph, indices: map<Name, nat>, stack: seq<Name>, gray: set<Name>, base: nat,
                           todo: set<Name>, low: nat) {
    && base < |stack|
    && stack[base] in g && stack[base] in indices
    && stack[base] !in gray && gray <= Elements(stack[..base])
    && (forall d :: d in g[stack[base]] && d !in todo ==> d in indices)
    && low <= indices[stack[base]]
    && LowReached(g, indices, stack, stack[base], low)
    && LowBoundsExcept(g, indices, stack, base, todo, low)
  }

  lemma LowAtMostIndex(g: Graph, indices: map<Name, nat>, stack: seq<Name>, gray: set<Name>, base: nat, low: nat)
    requires base < |stack| && stack[base] in indices && Scanning(g, indices, stack, gray, base, {}, low)
    ensures low <= indices[stack[base]]
  {
  }

  /** What a finished visit of `m`, begun on a stack of height `base`, leaves in its low link. */
  ghost predicate LowOk(g: Graph, indices: map<Name, nat>, stack: seq<Name>, m: Name, base: nat, low: nat) {
    && m in indices
    && low <= indices[m]
    && (low < indices[m] ==> LowReached(g, indices, stack, m, low))
    && LowBounds(g, indices, stack, base, low)
  }

  lemma UpperPartApart(indices: map<Name, nat>, stack: seq<Name>, base: nat)
    requires base <= |stack| && StackOrdered(indices, stack)
    ensures Elements(stack[base..]) !! Elements(stack[..base])
    ensures Elements(stack[base..]) <= indices.Keys
    ensures Elements(stack) == Elements(stack[..base]) + Elements(stack[base..])
  {
    assert stack == stack[..base] + stack[base..];
    forall i, j | 0 <= i < base <= j < |stack| ensures stack[i] != stack[j] {
      assert indices[stack[i]] < indices[stack[j]];
    }
  }

  /** No edge leaves the upper part of the stack except to settled modules. */
  lemma UpperPartIsClosed(g: Graph, indices: map<Name, nat>, stack: seq<Name>, gray: set<Name>, base: nat)
    requires StackOrdered(indices, stack) && base < |stack| && stack[base] in indices
             && Scanning(g, indices, stack, gray, base, {}, indices[stack[base]])
    requires NoUnvisitedSuccessor(g, indices, gray + {stack[base]})
    requires ClosedUnder(g, Settled(indices, stack))
    ensures ClosedUnder(g, Elements(stack[base..]) + Settled(indices, stack))
  {
    var c, done := Elements(stack[base..]), Settled(indices, stack);
    UpperPartApart(indices, stack, base);
    forall x, y | x in c + done && x in g && y in g[x] ensures y in c + done {
      if x in c {
        var i := UpperIndex(stack, base, x);
        assert x !in gray;
        assert y in indices;
      }
    }
  }

  lemma UpperIndex(stack: seq<Name>, base: nat, x: Name) returns (i: nat)
    requires base <= |stack| && x in Elements(stack[base..])
    ensures base <= i < |stack| && stack[i] == x
  {
    var k :| 0 <= k < |stack[base..]| && stack[base..][k] == x;
    i := base + k;
  }

  lemma UpperPartReaches(g: Graph, indices: map<Name, nat>, stack: seq<Name>, gray: set<Name>, base: nat, y: Name)
    requires StackOrdered(indices, stack) && base < |stack| && stack[base] in indices
             && Scanning(g, indices, stack, gray, base, {}, indices[stack[base]])
    requires ClosedUnder(g, Elements(stack[base..]) + Settled(indices, stack))
    requires GrayReachesUp(g, stack, gray + {stack[base]}) && ReachesGray(g, indices, stack, gray + {stack[base]})
    requires y in Elements(stack[base..])
    ensures Reach(g, stack[base], y) && Reach(g, y, stack[base])
  {
    var m, c, done := stack[base], Elements(stack[base..]), Settled(indices, stack);
    var i := UpperIndex(stack, base, y);
    if i == base { ReachSelf(g, m); }
    assert HasWitness(g, indices, gray + {m}, y);
    var x :| Witness(g, indices, gray + {m}, y, x);
    ReachStays(g, c + done, y, x);
    UpperPartApart(indices, stack, base);
    assert m == stack[base..][0] && m in c;
  }

  lemma UpperPartIsScc(g: Graph, indices: map<Name, nat>, stack: seq<Name>, gray: set<Name>, base: nat)
    requires StackOrdered(indices, stack) && base < |stack| && stack[base] in indices
             && Scanning(g, indices, stack, gray, base, {}, indices[stack[base]])
    requires NoUnvisitedSuccessor(g, indices, gray + {stack[base]})
    requires ClosedUnder(g, Settled(indices, stack))
    requires GrayReachesUp(g, stack, gray + {stack[base]}) && ReachesGray(g, indices, stack, gray + {stack[base]})
    ensures IsScc(g, Elements(stack[base..]))
    ensures ClosedUnder(g, Elements(stack[base..]) + Settled(indices, stack))
  {
    var m, c, done := stack[base], Elements(stack[base..]), Settled(indices, stack);
    UpperPartIsClosed(g, indices, stack, gray, base);
    UpperPartApart(indices, stack, base);
    assert m == stack[base..][0] && m in c;
    forall x, y | x in c && y in c ensures Reach(g, x, y) {
      UpperPartReaches(g, indices, stack, gray, base, x);
      UpperPartReaches(g, indices, stack, gray, base, y);
      ReachTrans(g, x, m, y);
    }
    forall x, y | x in c && Reach(g, x, y) && Reach(g, y, x) ensures y in c {
      ReachStays(g, c + done, x, y);
      if y in done { ReachStays(g, done, y, x); }
    }
  }

  lemma PopGray(g: Graph, indices: map<Name, nat>, stack: seq<Name>, gray: set<Name>, base: nat)
    requires StackOrdered(indices, stack) && base < |stack|
    requires GrayReachesUp(g, stack, gray + {stack[base]}) && ReachesGray(g, indices, stack, gray + {stack[base]})
    ensures GrayReachesUp(g, stack[..base], gray) && ReachesGray(g, indices, stack[..base], gray)
  {
    forall y | y in stack[..base] ensures HasWitness(g, indices, gray, y) {
      assert HasWitness(g, indices, gray + {stack[base]}, y);
      var x :| Witness(g, indices, gray + {stack[base]}, y, x);
      var k :| 0 <= k < base && stack[k] == y;
      assert indices[stack[k]] < indices[stack[base]];
      assert Witness(g, indices, gray, y, x);
    }
  }

  lemma PopSettled(g: Graph, settled: set<Name>, popped: set<set<Name>>, c: set<Name>)
    requires PoppedRight(g, settled, popped) && IsScc(g, c)
    ensures PoppedRight(g, settled + c, popped + {c})
  {
    forall x | x in settled + c ensures Covered(popped + {c}, x) {
      if x in c {
        assert c in popped + {c};
      } else {
        assert Covered(popped, x);
        var d :| d in popped && x in d;
        assert d in popped + {c};
      }
    }
  }

  /** When the low link of a finished module equals its index, the stack from it upwards is one
      strongly connected component, and popping it keeps the invariant. */
  lemma Pop(g: Graph, indices: map<Name, nat>, stack: seq<Name>, gray: set<Name>, popped: set<set<Name>>, base: nat,
            low: nat)
    requires base < |stack| && stack[base] in indices && low == indices[stack[base]]
    requires Wf(g, indices, stack, gray + {stack[base]}, popped)
    requires Scanning(g, indices, stack, gray, base, {}, low)
    ensures StackOrdered(indices, stack)
    ensures stack[base] in Elements(stack[base..]) && Elements(stack[base..]) !in popped
    ensures Wf(g, indices, stack[..base], gray, popped + {Elements(stack[base..])})
    ensures LowOk(g, indices, stack[..base], stack[base], base, low)
  {
    var c, done := Elements(stack[base..]), Settled(indices, stack);
    UpperPartIsScc(g, indices, stack, gray, base);
    UpperPartApart(indices, stack, base);
    assert stack[base] == stack[base..][0];
    assert Settled(indices, stack[..base]) == done + c;
    PopGray(g, indices, stack, gray, base);
    PopSettled(g, done, popped, c);
  }

  /** The reported list holds the cyclic ones among the popped components, each once. */
  ghost predicate Reported(g: Graph, popped: set<set<Name>>, components: seq<set<Name>>) {
    && (forall c :: c in components <==> c in popped && Cyclic(g, c))
    && (forall i, j | 0 <= i < j < |components| :: components[i] != components[j])
  }

  lemma ReportPopped(g: Graph, popped: set<set<Name>>, components: seq<set<Name>>, c: set<Name>, m: Name)
    requires Reported(g, popped, components) && c !in popped && m in c && m in g
    ensures Reported(g, popped + {c}, if |c| > 1 || m in g[m] then components + [c] else components)
  {
    SingletonCyclic(g, c, m);
    var components' := if |c| > 1 || m in g[m] then components + [c] else components;
    forall d ensures d in components' <==> d in popped + {c} && Cyclic(g, d) {
      assert d in components' <==> d in components || (d == c && Cyclic(g, c));
    }
    forall i, j | 0 <= i < j < |components'| ensures components'[i] != components'[j] {
      assert components'[i] in components;
    }
  }

  /** What a visit leaves alone: it only numbers new modules, and only adds above the stack it found. */
  ghost predicate Extends(indices0: map<Name, nat>, lowlinks0: map<Name, nat>, stack0: seq<Name>,
                          indices: map<Name, nat>, lowlinks: map<Name, nat>, stack: seq<Name>) {
    && indices0.Keys <= indices.Keys
    && (forall m :: m in indices0 ==> indices[m] == indices0[m])
    && (forall m :: m in indices0 && m in lowlinks0 ==> m in lowlinks && lowlinks[m] == lowlinks0[m])
    && |stack0| <= |stack| && stack[..|stack0|] == stack0
  }

  lemma ExtendsTrans(i0: map<Name, nat>, l0: map<Name, nat>, s0: seq<Name>,
                     i1: map<Name, nat>, l1: map<Name, nat>, s1: seq<Name>,
                     i2: map<Name, nat>, l2: map<Name, nat>, s2: seq<Name>)
    requires Extends(i0, l0, s0, i1, l1, s1) && Extends(i1, l1, s1, i2, l2, s2)
    ensures Extends(i0, l0, s0, i2, l2, s2)
  {
    assert s2[..|s0|] == s2[..|s1|][..|s0|];
  }

  /** The low link of a module numbered since is not part of what is left alone. */
  lemma ExtendsSetLow(i0: map<Name, nat>, l0: map<Name, nat>, s0: seq<Name>,
                      i1: map<Name, nat>, l1: map<Name, nat>, s1: seq<Name>, m: Name, low: nat)
    requires Extends(i0, l0, s0, i1, l1, s1) && m !in i0
    ensures Extends(i0, l0, s0, i1, l1[m := low], s1)
  {
  }

  lemma ExtendsSelf(i0: map<Name, nat>, l0: map<Name, nat>, s0: seq<Name>)
    ensures Extends(i0, l0, s0, i0, l0, s0)
  {
  }

  lemma ExtendsSetBoth(i0: map<Name, nat>, l0: map<Name, nat>, s0: seq<Name>,
                       i1: map<Name, nat>, l1: map<Name, nat>, s1: seq<Name>, m: Name, low: nat)
    requires Extends(i0, l0, s0, i1, l1, s1)
    ensures Extends(i0, l0[m := low], s0, i1, l1[m := low], s1)
  {
  }

  lemma ExtendsPush(i0: map<Name, nat>, l0: map<Name, nat>, s0: seq<Name>, m: Name)
    requires m !in i0
    ensures Extends(i0, l0, s0, i0[m := |i0|], l0[m := |i0|], s0 + [m])
  {
  }

  lemma ExtendsKeeps(i0: map<Name, nat>, l0: map<Name, nat>, s0: seq<Name>,
                     i1: map<Name, nat>, l1: map<Name, nat>, s1: seq<Name>, m: Name, base: nat)
    requires Extends(i0, l0, s0, i1, l1, s1) && m in i0 && m in l0 && base < |s0| && s0[base] == m
    ensures m in i1 && i1[m] == i0[m] && m in l1 && l1[m] == l0[m]
    ensures |s0| <= |s1| && s1[base] == m
  {
    assert s1[..|s0|][base] == s1[base];
  }

  lemma ExtendsPop(i0: map<Name, nat>, l0: map<Name, nat>, s0: seq<Name>,
                   i1: map<Name, nat>, l1: map<Name, nat>, s1: seq<Name>)
    requires Extends(i0, l0, s0, i1, l1, s1)
    ensures |s0| <= |s1| && Extends(i0, l0, s0, i1, l1, s1[..|s0|]) && s1[..|s0|] == s0
  {
  }

  class CycleFinder {
    const graph: Graph
    var indices: map<Name, nat>
    var lowlinks: map<Name, nat>
    var stack: seq<Name>
    var onStack: set<Name>
    var components: seq<set<Name>>
    ghost var popped: set<set<Name>>

    ghost predicate Valid(gray: set<Name>)
      reads this
    {
      && Wf(graph, indices, stack, gray, popped)
      && lowlinks.Keys == indices.Keys
      && onStack == Elements(stack)
      && Reported(graph, popped, components)
    }

    constructor (g: Graph)
      requires Closed(g)
      ensures graph == g && Valid({}) && indices == map[] && stack == [] && popped == {}
    {
      graph := g;
      indices, lowlinks, stack, onStack, components, popped := map[], map[], [], {}, [], {};
    }

    /** The popping loop at the end of `visit`: everything from `node` upwards leaves the stack. */
    method PopFrom(node: Name, ghost base: nat) returns (component: set<Name>)
      requires StackOrdered(indices, stack) && onStack == Elements(stack)
      requires base < |stack| && stack[base] == node
      modifies this`stack, this`onStack
      ensures stack == old(stack)[..base] && onStack == Elements(stack)
      ensures component == Elements(old(stack)[base..])
    {
      ghost var full := stack;
      component := {};
      while true
        invariant base < |stack| <= |full| && stack == full[..|stack|]
        invariant component == Elements(full[|stack|..])
        invariant onStack == Elements(stack)
        decreases |stack|
      {
        var member := stack[|stack| - 1];
        OneLess(indices, full, |stack|);
        stack := stack[..|stack| - 1];
        onStack := onStack - {member};
        component := component + {member};
        if member == node { break; }
      }
      assert |stack| == base;
    }

    /** The part of `visit` after the early return: the module is the root of its component. */
    method PopComponent(node: Name, ghost gray: set<Name>, ghost base: nat)
      requires Valid(gray + {node}) && node in graph && node in indices && lowlinks[node] == indices[node]
      requires base < |stack| && stack[base] == node
      requires Scanning(graph, indices, stack, gray, base, {}, lowlinks[node])
      modifies this`stack, this`onStack, this`components, this`popped
      ensures Valid(gray) && stack == old(stack)[..base]
      ensures LowOk(graph, indices, stack, node, base, lowlinks[node])
    {
      hide Wf, Reported, Reach, LowOk, Scanning, Elements;
      Pop(graph, indices, stack, gray, popped, base, lowlinks[node]);
      var component := PopFrom(node, base);
      ReportPopped(graph, popped, components, component, node);
      popped := popped + {component};
      if |component| > 1 || node in graph[node] {
        components := components + [component];
      }
    }

    /** One turn of the loop over the successors: visit it, or fold in its index, or pass over it. */
    method Read(node: Name, dependency: Name, ghost gray: set<Name>, ghost base: nat, ghost todo: set<Name>)
      requires Valid(gray + {node}) && node in graph && dependency in graph[node] && node in indices
      requires base < |stack| && stack[base] == node
      requires Scanning(graph, indices, stack, gray, base, todo + {dependency}, lowlinks[node])
      modifies this
      ensures Valid(gray + {node}) && node in indices && indices[node] == old(indices)[node]
      ensures base < |stack| && stack[base] == node
      ensures old(indices).Keys <= indices.Keys
      ensures Extends(old(indices), old(lowlinks)[node := lowlinks[node]], old(stack), indices, lowlinks, stack)
      ensures Scanning(graph, indices, stack, gray, base, todo, lowlinks[node])
      decreases graph.Keys - indices.Keys, 1
    {
      hide Wf, Reported, Reach, LowOk, Scanning, Elements, Extends;
      ghost var indices1, lowlinks1, stack1, popped1 := indices, lowlinks, stack, popped;
      SuccessorKnown(graph, indices, stack, gray, popped, base, todo + {dependency}, dependency, lowlinks[node]);
      ExtendsSelf(indices, lowlinks, stack);
      if dependency !in indices {
        Visit(dependency, gray + {node});
        ExtendsKeeps(indices1, lowlinks1, stack1, indices, lowlinks, stack, node, base);
        TreeStep(graph, indices1, lowlinks1, stack1, gray, popped1, indices, lowlinks, stack, base, todo, dependency);
        ExtendsSetBoth(indices1, lowlinks1, stack1, indices, lowlinks, stack, node,
          Min(lowlinks[node], lowlinks[dependency]));
        lowlinks := lowlinks[node := Min(lowlinks[node], lowlinks[dependency])];
      } else if dependency in onStack {
        CrossStep(graph, indices, stack, gray, popped, base, todo, dependency, lowlinks[node]);
        ExtendsSetBoth(indices1, lowlinks1, stack1, indices, lowlinks, stack, node,
          Min(lowlinks[node], indices[dependency]));
        lowlinks := lowlinks[node := Min(lowlinks[node], indices[dependency])];
      } else {
        assert lowlinks == lowlinks[node := lowlinks[node]];
        SettledStep(graph, indices, stack, gray, base, todo, dependency, lowlinks[node]);
      }
    }

    method Visit(node: Name, ghost gray: set<Name>)
      requires Valid(gray)
      requires node in graph && node !in indices
      requires forall x :: x in gray ==> Reach(graph, x, node)
      modifies this
      ensures Valid(gray)
      ensures Extends(old(indices), old(lowlinks), old(stack), indices, lowlinks, stack)
      ensures old(indices).Keys <= indices.Keys && node in indices && |old(indices)| <= indices[node]
      ensures LowOk(graph, indices, stack, node, |old(stack)|, lowlinks[node])
      decreases graph.Keys - indices.Keys, 0
    {
      hide Wf, Reported, Reach, LowBounds, LowBoundsExcept, LowReached, LowOk, Scanning, Elements, Extends;
      ghost var base, indices0, lowlinks0, stack0 := |stack|, indices, lowlinks, stack;
      Push(graph, indices, stack, gray, popped, node);
      ExtendsPush(indices, lowlinks, stack, node);
      indices := indices[node := |indices|];
      lowlinks := lowlinks[node := indices[node]];
      stack := stack + [node];
      onStack := onStack + {node};
      var todo := graph[node];
      while todo != {}
        invariant todo <= graph[node]
        invariant Valid(gray + {node})
        invariant Extends(indices0, lowlinks0, stack0, indices, lowlinks, stack)
        invariant indices0.Keys <= indices.Keys
        invariant base < |stack| && stack[base] == node && node in indices && |indices0| <= indices[node]
        invariant Scanning(graph, indices, stack, gray, base, todo, lowlinks[node])
        decreases todo
      {
        var dependency :| dependency in todo;
        ghost var indices1, lowlinks1, stack1 := indices, lowlinks, stack;
        assert todo == todo - {dependency} + {dependency};
        Read(node, dependency, gray, base, todo - {dependency});
        ExtendsSetLow(indices0, lowlinks0, stack0, indices1, lowlinks1, stack1, node, lowlinks[node]);
        ExtendsTrans(indices0, lowlinks0, stack0, indices1, lowlinks1[node := lowlinks[node]], stack1, indices,
          lowlinks, stack);
        todo := todo - {dependency};
      }
      LowAtMostIndex(graph, indices, stack, gray, base, lowlinks[node]);
      if lowlinks[node] != indices[node] {
        Blacken(graph, indices, stack, gray, popped, base, lowlinks[node]);
        return;
      }
      ExtendsPop(indices0, lowlinks0, stack0, indices, lowlinks, stack);
      PopComponent(node, gray, base);
    }

    /** `_cyclic_components` from the constructor's empty state: exactly the cyclic strongly connected
        components, each once, pairwise disjoint. */
    method FindAll()
      requires Valid({}) && indices == map[] && stack == []
      modifies this
      ensures forall c :: c in components <==> IsScc(graph, c) && c <= graph.Keys && Cyclic(graph, c)
      ensures forall i, j | 0 <= i < j < |components| :: components[i] !! components[j]
    {
      var todo := graph.Keys;
      while todo != {}
        invariant todo <= graph.Keys && graph.Keys - todo <= indices.Keys
        invariant Valid({}) && stack == []
        decreases todo
      {
        var node :| node in todo;
        todo := todo - {node};
        if node !in indices {
          Visit(node, {});
          NoGrayNoStack(graph, indices, stack, popped);
        }
      }
      AllPopped(graph, indices, popped);
      forall i, j | 0 <= i < j < |components| ensures components[i] !! components[j] {
        if x :| x in components[i] && x in components[j] {
          assert components[i] in components && components[j] in components;
          SccsMeetOnlyIfEqual(graph, components[i], components[j], x);
        }
      }
    }
  }

  function Min(a: nat, b: nat): nat { if a <= b then a else b }

  /** A single module is reported exactly when it imports itself. */
  lemma SingletonCyclic(g: Graph, c: set<Name>, m: Name)
    requires m in c && m in g
    ensures Cyclic(g, c) <==> |c| > 1 || m in g[m]
  {
    if |c| <= 1 {
      assert |c - {m}| == 0;
      assert c == {m};
    }
  }

  lemma OneLess(indices: map<Name, nat>, full: seq<Name>, n: nat)
    requires 0 < n <= |full| && StackOrdered(indices, full)
    ensures Elements(full[..n]) - {full[n - 1]} == Elements(full[..n - 1])
    ensures Elements(full[n..]) + {full[n - 1]} == Elements(full[n - 1..])
    ensures full[..n][..n - 1] == full[..n - 1]
  {
    assert full[..n] == full[..n - 1] + [full[n - 1]];
    assert full[n - 1..] == [full[n - 1]] + full[n..];
    UpperPartApart(indices, full, n - 1);
    assert full[n - 1..][0] == full[n - 1];
  }

  /** A successor about to be read is a module, and every running visit reaches it. */
  lemma SuccessorKnown(g: Graph, indices: map<Name, nat>, stack: seq<Name>, gray: set<Name>, popped: set<set<Name>>,
                       base: nat, todo: set<Name>, d: Name, low: nat)
    requires base < |stack| && stack[base] in g && d in g[stack[base]]
    requires Scanning(g, indices, stack, gray, base, todo, low)
    requires Wf(g, indices, stack, gray + {stack[base]}, popped)
    ensures d in g && forall x :: x in gray + {stack[base]} ==> Reach(g, x, d)
  {
    ReachEdge(g, stack[base], d);
    forall x | x in gray ensures Reach(g, x, d) {
      assert x in stack[..base];
      var i :| 0 <= i < base && stack[i] == x;
      ReachTrans(g, x, stack[base], d);
    }
  }

  lemma TreeLowReached(g: Graph, indices1: map<Name, nat>, stack1: seq<Name>, indices: map<Name, nat>, stack: seq<Name>,
                       m: Name, d: Name, low1: nat, low2: nat)
    requires LowReached(g, indices1, stack1, m, low1)
    requires |stack1| <= |stack| && stack[..|stack1|] == stack1
    requires forall x :: x in indices1 ==> x in indices && indices[x] == indices1[x]
    requires m in g && d in g && d in g[m]
    requires low2 < low1 ==> LowReached(g, indices, stack, d, low2)
    ensures LowReached(g, indices, stack, m, Min(low1, low2))
  {
    if low1 <= low2 {
      var k :| 0 <= k < |stack1| && stack1[k] in indices1 && indices1[stack1[k]] == low1 && Reach(g, m, stack1[k]);
      assert stack[k] == stack1[k];
    } else {
      var k :| 0 <= k < |stack| && stack[k] in indices && indices[stack[k]] == low2 && Reach(g, d, stack[k]);
      ReachEdge(g, m, d);
      ReachTrans(g, m, d, stack[k]);
    }
  }

  lemma TreeLowBounds(g: Graph, indices1: map<Name, nat>, stack1: seq<Name>, indices: map<Name, nat>, stack: seq<Name>,
                      base: nat, todo: set<Name>, d: Name, low1: nat, low2: nat)
    requires base < |stack1| && |stack1| <= |stack| && stack[..|stack1|] == stack1
    requires forall i | 0 <= i < |stack1| ::
               stack1[i] in indices1 && stack1[i] in indices && indices[stack1[i]] == indices1[stack1[i]]
    requires d !in indices1
    requires LowBoundsExcept(g, indices1, stack1, base, todo + {d}, low1)
    requires LowBounds(g, indices, stack, |stack1|, low2)
    ensures LowBoundsExcept(g, indices, stack, base, todo, Min(low1, low2))
  {
    assert forall i | 0 <= i < |stack1| :: stack[i] == stack1[i];
  }

  /** Folding in the low link of a successor that has just been visited. */
  lemma TreeStep(g: Graph, indices1: map<Name, nat>, lowlinks1: map<Name, nat>, stack1: seq<Name>, gray: set<Name>,
                 popped1: set<set<Name>>, indices: map<Name, nat>, lowlinks: map<Name, nat>, stack: seq<Name>,
                 base: nat, todo: set<Name>, d: Name)
    requires base < |stack1| && stack1[base] in g && d in g && d in g[stack1[base]]
    requires Wf(g, indices1, stack1, gray + {stack1[base]}, popped1) && d !in indices1
    requires Extends(indices1, lowlinks1, stack1, indices, lowlinks, stack)
    requires d in indices && |indices1| <= indices[d] && stack1[base] in indices1 && stack1[base] in lowlinks1
             && d in lowlinks
    requires Scanning(g, indices1, stack1, gray, base, todo + {d}, lowlinks1[stack1[base]])
    requires LowOk(g, indices, stack, d, |stack1|, lowlinks[d])
    ensures Scanning(g, indices, stack, gray, base, todo, Min(lowlinks1[stack1[base]], lowlinks[d]))
  {
    hide LowReached, LowBounds, LowBoundsExcept, Reach, Elements, ReachesGray, GrayReachesUp, PoppedRight, ClosedUnder,
         Settled;
    assert stack[base] == stack[..|stack1|][base];
    assert stack[..base] == stack[..|stack1|][..base];
    TreeLowReached(g, indices1, stack1, indices, stack, stack1[base], d, lowlinks1[stack1[base]], lowlinks[d]);
    TreeLowBounds(g, indices1, stack1, indices, stack, base, todo, d, lowlinks1[stack1[base]], lowlinks[d]);
  }

  /** Folding in the index of a successor that is on the stack. */
  lemma CrossStep(g: Graph, indices: map<Name, nat>, stack: seq<Name>, gray: set<Name>, popped: set<set<Name>>,
                  base: nat, todo: set<Name>, d: Name, low: nat)
    requires base < |stack| && stack[base] in g && d in g && d in g[stack[base]]
    requires Wf(g, indices, stack, gray + {stack[base]}, popped) && d in indices && d in Elements(stack)
    requires Scanning(g, indices, stack, gray, base, todo + {d}, low)
    ensures Scanning(g, indices, stack, gray, base, todo, Min(low, indices[d]))
  {
    if indices[d] < low {
      var k :| 0 <= k < |stack| && stack[k] == d;
      ReachEdge(g, stack[base], d);
    }
  }

  /** A successor whose component is already popped changes nothing. */
  lemma SettledStep(g: Graph, indices: map<Name, nat>, stack: seq<Name>, gray: set<Name>,
                    base: nat, todo: set<Name>, d: Name, low: nat)
    requires d in indices && d !in Elements(stack)
    requires Scanning(g, indices, stack, gray, base, todo + {d}, low)
    ensures Scanning(g, indices, stack, gray, base, todo, low)
  {
    forall j | 0 <= j < |stack| ensures stack[j] != d { assert stack[j] in Elements(stack); }
  }

  lemma NoWitness(g: Graph, indices: map<Name, nat>, y: Name)
    ensures !HasWitness(g, indices, {}, y)
  {
  }

  lemma NoGrayNoStack(g: Graph, indices: map<Name, nat>, stack: seq<Name>, popped: set<set<Name>>)
    requires Wf(g, indices, stack, {}, popped)
    ensures stack == []
  {
    if stack != [] {
      NoWitness(g, indices, stack[0]);
    }
  }

  lemma AllPopped(g: Graph, indices: map<Name, nat>, popped: set<set<Name>>)
    requires Wf(g, indices, [], {}, popped) && indices.Keys == g.Keys
    ensures forall c :: c in popped <==> IsScc(g, c) && c <= g.Keys
  {
    assert Settled(indices, []) == g.Keys;
    forall c | IsScc(g, c) && c <= g.Keys ensures c in popped {
      var x :| x in c;
      assert Covered(popped, x);
      var d :| d in popped && x in d;
      SccsMeetOnlyIfEqual(g, c, d, x);
    }
  }

  // ------------------------------------------------------------------ the ratchet

  lemma ReachInside(g: Graph, x: Name, y: Name)
    requires Reach(g, x, y)
    ensures x in g && y in g
  {
    var p :| Connects(g, p, x, y);
    assert p[0] in g && p[|p| - 1] in g;
  }

  /** The component of a module: everything it reaches that reaches it back. */
  ghost function ComponentOf(g: Graph, x: Name): set<Name> {
    set y | y in g && Reach(g, x, y) && Reach(g, y, x)
  }

  lemma ComponentIsScc(g: Graph, x: Name)
    requires x in g
    ensures IsScc(g, ComponentOf(g, x)) && x in ComponentOf(g, x)
  {
    ReachSelf(g, x);
    var c := ComponentOf(g, x);
    assert x in c;
    forall y, z | y in c && z in c ensures Reach(g, y, z) { ReachTrans(g, y, x, z); }
    forall y, z | y in c && Reach(g, y, z) && Reach(g, z, y) ensures z in c {
      ReachInside(g, y, z);
      ReachTrans(g, x, y, z);
      ReachTrans(g, z, y, x);
    }
  }

  /** A module lies on a directed cycle exactly when its component is one the search reports. */
  lemma CycleIffCyclicComponent(g: Graph, x: Name)
    requires Closed(g) && x in g
    ensures OnCycle(g, x) <==> |ComponentOf(g, x)| > 1 || x in g[x]
  {
    var c := ComponentOf(g, x);
    ComponentIsScc(g, x);
    if p :| Connects(g, p, x, x) && |p| > 1 {
      if p[1] != x {
        assert Connects(g, p[..2], x, p[1]);
        assert Connects(g, p[1..], p[1], x);
        assert {x, p[1]} <= c;
        assert |c - {x, p[1]}| == |c| - 2;
      }
    }
    if x in g[x] {
      assert Connects(g, [x, x], x, x);
    } else if |c| > 1 {
      assert |c - {x}| == |c| - 1;
      var y :| y in c - {x};
      var p :| Connects(g, p, x, y);
      var q :| Connects(g, q, y, x);
      Join(g, p, q, x, y, x);
    }
  }

  /** No component is reported exactly when the graph has no directed cycle at all. */
  lemma NoCyclicComponentIffAcyclic(g: Graph)
    requires Closed(g)
    ensures (forall c :: IsScc(g, c) && c <= g.Keys ==> !Cyclic(g, c)) <==> (forall x :: x in g ==> !OnCycle(g, x))
  {
    if x :| x in g && OnCycle(g, x) {
      CycleIffCyclicComponent(g, x);
      ComponentIsScc(g, x);
      SingletonCyclic(g, ComponentOf(g, x), x);
      assert Cyclic(g, ComponentOf(g, x));
    }
    if c :| IsScc(g, c) && c <= g.Keys && Cyclic(g, c) {
      var x :| x in c;
      if |c| <= 1 { SingletonCyclic(g, c, x); }
      ComponentIsScc(g, x);
      SccsMeetOnlyIfEqual(g, c, ComponentOf(g, x), x);
      CycleIffCyclicComponent(g, x);
      SingletonCyclic(g, c, x);
    }
  }

  /** One line of the ratchet's report. */
  datatype Finding = NewOrChanged(component: set<Name>) | Residual(component: set<Name>)

  ghost predicate CyclicSccOf(g: Graph, c: set<Name>) { IsScc(g, c) && c <= g.Keys && Cyclic(g, c) }

  /** No finding is made twice, and the residual ones come last. */
  ghost predicate InOrder(errors: seq<Finding>) {
    forall i, j | 0 <= i < j < |errors| :: errors[i] != errors[j] && (errors[i].Residual? ==> errors[j].Residual?)
  }

  /** `check_import_cycle_ratchet`: one finding for each component only the graph has, then one for
      each only the baseline has. */
  method CheckRatchet(g: Graph, baseline: set<set<Name>>) returns (errors: seq<Finding>)
    requires Closed(g)
    ensures forall c :: NewOrChanged(c) in errors <==> CyclicSccOf(g, c) && c !in baseline
    ensures forall c :: Residual(c) in errors <==> c in baseline && !CyclicSccOf(g, c)
    ensures InOrder(errors)
    ensures errors == [] <==> forall c :: c in baseline <==> CyclicSccOf(g, c)
    ensures baseline == {} ==> (errors == [] <==> forall x :: x in g ==> !OnCycle(g, x))
  {
    var finder := new CycleFinder(g);
    finder.FindAll();
    var actual := set c | c in finder.components;
    errors := [];
    var todo := actual - baseline;
    while todo != {}
      invariant todo <= actual - baseline
      invariant forall e :: e in errors <==> e.NewOrChanged? && e.component in actual - baseline - todo
      invariant InOrder(errors)
      decreases todo
    {
      var component :| component in todo;
      todo := todo - {component};
      errors := errors + [NewOrChanged(component)];
    }
    ghost var newFindings := errors;
    todo := baseline - actual;
    while todo != {}
      invariant todo <= baseline - actual
      invariant forall e :: e in errors <==>
                e in newFindings || (e.Residual? && e.component in baseline - actual - todo)
      invariant InOrder(errors)
      decreases todo
    {
      var component :| component in todo;
      todo := todo - {component};
      errors := errors + [Residual(component)];
    }
    if errors == [] {
      forall c ensures c in baseline <==> CyclicSccOf(g, c) {
        assert NewOrChanged(c) !in errors && Residual(c) !in errors;
      }
    } else {
      assert errors[0] in errors;
    }
    NoCyclicComponentIffAcyclic(g);
  }

  /** The imported names of `m` that are modules themselves. */
  function Imported(candidates: map<Name, seq<Name>>, m: Name): set<Name>
    requires m in candidates
  {
    set c | c in candidates[m] && c in candidates
  }

  /** `_runtime_import_graph` keeps only imported names that are modules, so its graph is closed. */
  method RuntimeImportGraph(candidates: map<Name, seq<Name>>) returns (graph: Graph)
    ensures graph.Keys == candidates.Keys && Closed(graph)
    ensures forall m :: m in graph ==> graph[m] == set c | c in candidates[m] && c in candidates
  {
    graph := map m | m in candidates :: {};
    var todo := candidates.Keys;
    while todo != {}
      invariant todo <= candidates.Keys && graph.Keys == candidates.Keys
      invariant forall m :: m in graph ==> graph[m] == if m in todo then {} else Imported(candidates, m)
      decreases todo
    {
      var m :| m in todo;
      todo := todo - {m};
      graph := graph[m := graph[m] + Imported(candidates, m)];
    }
  }
}
