/** The exhaustive explorer of the abstract protocol.  The state is its own key: the serialisation used
    as a key in the program is taken to be one-to-one. */
module Explorer {
  import opened Identity
  import opened DModel

  datatype Rule = I1DoubleEffect | I3IrreversibleDouble | I4CommittedButNoEffect
  datatype Violation = Violation(rule: Rule, state: State)

  /** The checks made on one state, in order. */
  function Violations(s: State, klass: Klass): seq<Violation> {
    (if s.durableEffect > 1 then [Violation(I1DoubleEffect, s)] else [])
    + (if klass.Irreversible? && s.durableEffect > 1 then [Violation(I3IrreversibleDouble, s)] else [])
    + (if s.committed && s.durableEffect == 0 then [Violation(I4CommittedButNoEffect, s)] else [])
  }

  // ---- a finite set of states that no run leaves ----

  function Pcs(): set<Pc> {
    {Start, Acquired, Claimed, Effecting, Done, Stale, Uncertain}
  }

  function Coords(bound: nat): set<Coord> {
    (set pc | pc in Pcs() :: Coord(None, pc)) + (set e: nat, pc | e <= bound && pc in Pcs() :: Coord(Some(e), pc))
  }

  lemma InCoords(c: Coord, bound: nat)
    requires c.known.Some? ==> c.known.value <= bound
    ensures c in Coords(bound)
  {
    var pc := c.pc;
    assert pc in Pcs() by {
      match pc
      case Start =>
      case Acquired =>
      case Claimed =>
      case Effecting =>
      case Done =>
      case Stale =>
      case Uncertain =>
    }
    if c.known.None? {
      assert c == Coord(None, pc);
    } else {
      var e := c.known.value;
      assert e <= bound && pc in Pcs() && c == Coord(Some(e), pc);
      assert c in (set e: nat, pc | e <= bound && pc in Pcs() :: Coord(Some(e), pc));
    }
  }

  function CoordSeqs(n: nat, bound: nat): set<seq<Coord>> {
    if n == 0 then {[]}
    else set c, cs | c in Coords(bound) && cs in CoordSeqs(n - 1, bound) :: [c] + cs
  }

  function Universe(n: nat, bound: nat): set<State> {
    set owner: nat, claim: nat, started: bool, committed: bool, effects: nat, uncertain: bool, cs |
      owner <= bound && claim <= bound && effects <= 1 && cs in CoordSeqs(n, bound)
      :: State(owner, claim, started, committed, effects, uncertain, cs)
  }

  lemma {:induction false} InCoordSeqs(cs: seq<Coord>, bound: nat)
    requires forall i :: 0 <= i < |cs| && cs[i].known.Some? ==> cs[i].known.value <= bound
    ensures cs in CoordSeqs(|cs|, bound)
  {
    if cs != [] {
      InCoordSeqs(cs[1..], bound);
      InCoords(cs[0], bound);
      assert cs == [cs[0]] + cs[1..];
    }
  }

  /** The effect bound of the invariant is what makes the reachable states finitely many. */
  lemma ReachableInUniverse(s: State, n: nat, klass: Klass, bound: nat)
    requires Reachable(s, n, klass, bound)
    ensures s in Universe(n, bound)
  {
    ReachableInv(s, n, klass, bound);
    forall i | 0 <= i < |s.c| && s.c[i].known.Some? ensures s.c[i].known.value <= bound {
      assert CoordInv(s, klass, i);
    }
    InCoordSeqs(s.c, bound);
    assert s == State(s.ownerEpoch, s.claimedBy, s.effectStarted, s.committed, s.durableEffect, s.uncertain, s.c);
  }

  lemma InitialReachable(n: nat, klass: Klass, bound: nat)
    ensures Reachable(Initial(n), n, klass, bound)
  {
    assert PathBetween([Initial(n)], Initial(n), Initial(n), klass, bound);
  }

  lemma SuccessorReachable(s: State, t: State, n: nat, klass: Klass, bound: nat)
    requires Reachable(s, n, klass, bound) && t in Successors(s, klass, bound)
    ensures Reachable(t, n, klass, bound)
  {
    var p :| PathBetween(p, Initial(n), s, klass, bound);
    assert PathBetween(p + [t], Initial(n), t, klass, bound);
  }

  /** A set that holds the start of a path and is closed under successors holds its end. */
  lemma {:induction false} ClosedHoldsPath(seen: set<State>, p: seq<State>, klass: Klass, bound: nat)
    requires Path(p, klass, bound) && p[0] in seen
    requires Closed(seen, klass, bound)
    ensures p[|p| - 1] in seen
    decreases |p|
  {
    if |p| > 1 {
      ClosedHoldsPath(seen, p[..|p| - 1], klass, bound);
      assert p[|p| - 1] in Successors(p[|p| - 2], klass, bound);
    }
  }

  ghost predicate Closed(states: set<State>, klass: Klass, bound: nat) {
    forall s, t :: s in states && t in Successors(s, klass, bound) ==> t in states
  }

  ghost predicate IsReachableSet(states: set<State>, n: nat, klass: Klass, bound: nat) {
    forall s :: s in states <==> Reachable(s, n, klass, bound)
  }

  ghost predicate AllPass(n: nat, klass: Klass, bound: nat) {
    forall s :: Reachable(s, n, klass, bound) ==> Violations(s, klass) == []
  }

  ghost function ReachableSet(n: nat, klass: Klass, bound: nat): set<State> {
    set s | s in Universe(n, bound) && Reachable(s, n, klass, bound)
  }

  lemma ReachableSetIs(n: nat, klass: Klass, bound: nat)
    ensures IsReachableSet(ReachableSet(n, klass, bound), n, klass, bound)
    ensures Initial(n) in ReachableSet(n, klass, bound) && Closed(ReachableSet(n, klass, bound), klass, bound)
  {
    forall s | Reachable(s, n, klass, bound) ensures s in ReachableSet(n, klass, bound) {
      ReachableInUniverse(s, n, klass, bound);
    }
    InitialReachable(n, klass, bound);
    forall s, t | s in ReachableSet(n, klass, bound) && t in Successors(s, klass, bound)
      ensures t in ReachableSet(n, klass, bound)
    {
      SuccessorReachable(s, t, n, klass, bound);
    }
  }

  /** The reachable states are the least closed set that holds the initial state. */
  lemma ClosedHoldsReachable(seen: set<State>, n: nat, klass: Klass, bound: nat)
    requires Initial(n) in seen && Closed(seen, klass, bound)
    ensures ReachableSet(n, klass, bound) <= seen
  {
    forall s | Reachable(s, n, klass, bound) ensures s in seen {
      var p :| PathBetween(p, Initial(n), s, klass, bound);
      ClosedHoldsPath(seen, p, klass, bound);
    }
  }

  lemma ReachablePass(n: nat, klass: Klass, bound: nat)
    ensures AllPass(n, klass, bound)
  {
    forall s | Reachable(s, n, klass, bound) ensures Violations(s, klass) == [] {
      CommittedIffOneEffect(s, n, klass, bound);
    }
  }

  // ---- the search ----

  ghost predicate ClosedAt(s: State, seen: set<State>, stack: seq<State>, klass: Klass, bound: nat) {
    forall t :: t in Successors(s, klass, bound) ==> t in seen || t in stack
  }

  /** What the search keeps: it stays inside `world`, it holds the start, and every successor of a
      visited state is visited or waiting. */
  ghost predicate Frontier(seen: set<State>, stack: seq<State>, world: set<State>, start: State, klass: Klass,
      bound: nat) {
    && seen <= world
    && (forall s :: s in stack ==> s in world)
    && (start in seen || start in stack)
    && forall s :: s in seen ==> ClosedAt(s, seen, stack, klass, bound)
  }

  lemma SkipKeepsFrontier(seen: set<State>, rest: seq<State>, s: State, world: set<State>, start: State,
      klass: Klass, bound: nat)
    requires Frontier(seen, rest + [s], world, start, klass, bound) && s in seen
    ensures Frontier(seen, rest, world, start, klass, bound)
  {
    forall x | x in seen ensures ClosedAt(x, seen, rest, klass, bound) {
      assert ClosedAt(x, seen, rest + [s], klass, bound);
    }
  }

  lemma VisitKeepsFrontier(seen: set<State>, rest: seq<State>, s: State, pushed: seq<State>, world: set<State>,
                           start: State, klass: Klass, bound: nat)
    requires Frontier(seen, rest + [s], world, start, klass, bound) && Closed(world, klass, bound)
    requires forall t :: t in pushed <==> t in rest || (t in Successors(s, klass, bound) && t !in seen + {s})
    ensures Frontier(seen + {s}, pushed, world, start, klass, bound)
  {
    assert s in rest + [s];
    forall x | x in seen + {s} ensures ClosedAt(x, seen + {s}, pushed, klass, bound) {
      assert x == s || ClosedAt(x, seen, rest + [s], klass, bound);
    }
  }

  ghost predicate Clean(seen: set<State>, klass: Klass) {
    forall s :: s in seen ==> Violations(s, klass) == []
  }

  lemma CleanAdd(seen: set<State>, s: State, klass: Klass)
    ensures Clean(seen + {s}, klass) <==> Clean(seen, klass) && Violations(s, klass) == []
  {
    assert s in seen + {s};
  }

  /** The inner loop: push the successors that have not been seen. */
  method PushUnseen(next: seq<State>, seen: set<State>, stack: seq<State>) returns (pushed: seq<State>)
    ensures stack <= pushed
    ensures forall t :: t in pushed <==> t in stack || (t in next && t !in seen)
  {
    pushed := stack;
    var i := 0;
    while i < |next|
      invariant 0 <= i <= |next|
      invariant stack <= pushed
      invariant forall t :: t in pushed <==> t in stack || (t in next[..i] && t !in seen)
    {
      if next[i] !in seen {
        pushed := pushed + [next[i]];
      }
      assert next[..i + 1] == next[..i] + [next[i]];
      i := i + 1;
    }
  }

  /** The checks made on a visited state.  Nothing is found exactly when the effect fired at most once and, if
      recorded as committed, at least once; each rule is reported exactly when it is broken, about that state. */
  method Inspect(s: State, klass: Klass) returns (found: seq<Violation>)
    ensures found == Violations(s, klass)
    ensures found == [] <==> s.durableEffect <= 1 && (s.committed ==> s.durableEffect == 1)
    ensures Violation(I1DoubleEffect, s) in found <==> s.durableEffect >= 2
    ensures Violation(I3IrreversibleDouble, s) in found <==> klass == Irreversible && s.durableEffect >= 2
    ensures Violation(I4CommittedButNoEffect, s) in found <==> s.committed && s.durableEffect == 0
    ensures forall v :: v in found ==> v.state == s
  {
    found := [];
    if s.durableEffect > 1 {
      found := found + [Violation(I1DoubleEffect, s)];
    }
    if klass.Irreversible? && s.durableEffect > 1 {
      found := found + [Violation(I3IrreversibleDouble, s)];
    }
    if s.committed && s.durableEffect == 0 {
      found := found + [Violation(I4CommittedButNoEffect, s)];
    }
  }

  /** The worklist loop, inside any finite set that no step leaves: it terminates with a closed set
      that holds the start, counts it, and reports violations exactly when it meets one. */
  method Explore(klass: Klass, start: State, bound: nat, ghost world: set<State>)
    returns (states: nat, violations: seq<Violation>, seen: set<State>)
    requires start in world && Closed(world, klass, bound)
    ensures start in seen && seen <= world && Closed(seen, klass, bound)
    ensures states == |seen|
    ensures |violations| == 0 <==> Clean(seen, klass)
  {
    seen := {};
    var stack := [start];
    violations := [];
    states := 0;
    while stack != []
      invariant states == |seen|
      invariant Frontier(seen, stack, world, start, klass, bound)
      invariant |violations| == 0 <==> Clean(seen, klass)
      decreases |world - seen|, |stack|
    {
      var s := stack[|stack| - 1];
      var rest := stack[..|stack| - 1];
      assert rest + [s] == stack;
      if s in seen {
        SkipKeepsFrontier(seen, rest, s, world, start, klass, bound);
        stack := rest;
        continue;
      }
      ghost var seen0 := seen;
      seen := seen + {s};
      states := states + 1;
      assert world - seen == world - seen0 - {s};
      var found := Inspect(s, klass);
      CleanAdd(seen0, s, klass);
      violations := violations + found;
      stack := PushUnseen(Successors(s, klass, bound), seen, rest);
      VisitKeepsFrontier(seen0, rest, s, stack, world, start, klass, bound);
    }
    forall s | s in seen ensures ClosedAt(s, seen, [], klass, bound) {
    }
  }

  /** EXHAUSTIVE: the states counted are the reachable ones, each once; the violations reported are
      none exactly when every reachable state passes every check; and there are none. */
  method Check(klass: Klass, n: nat, bound: nat)
    returns (states: nat, firstViolations: seq<Violation>, nViolations: nat, seen: set<State>)
    ensures IsReachableSet(seen, n, klass, bound) && states == |seen|
    ensures nViolations == 0 <==> AllPass(n, klass, bound)
    ensures nViolations == 0 && firstViolations == []
  {
    ReachableSetIs(n, klass, bound);
    var violations;
    states, violations, seen := Explore(klass, Initial(n), bound, ReachableSet(n, klass, bound));
    nViolations := |violations|;
    firstViolations := if |violations| <= 5 then violations else violations[..5];
    ClosedHoldsReachable(seen, n, klass, bound);
    ReachablePass(n, klass, bound);
  }

  const KLASSES: seq<Klass> := [Transactional, Idempotent, Overlay, Irreversible]

  /** So many states are reachable by two coordinators in five epochs. */
  ghost predicate Explored(klass: Klass, states: nat) {
    exists seen :: IsReachableSet(seen, 2, klass, 5) && states == |seen|
  }

  /** The program: all four classes, two coordinators, the bound it sets.  It passes. */
  method ModelCheck() returns (pass: bool, explored: seq<nat>)
    ensures pass && |explored| == 4
    ensures Explored(Transactional, explored[0]) && Explored(Idempotent, explored[1])
    ensures Explored(Overlay, explored[2]) && Explored(Irreversible, explored[3])
  {
    pass, explored := true, [];
    var i := 0;
    while i < |KLASSES|
      invariant 0 <= i <= |KLASSES| && |explored| == i && pass
      invariant forall j :: 0 <= j < i ==> Explored(KLASSES[j], explored[j])
    {
      var states, _, n, seen := Check(KLASSES[i], 2, MAX_EPOCH);
      assert Explored(KLASSES[i], states);
      pass := pass && n == 0;
      explored := explored + [states];
      i := i + 1;
    }
  }
}
