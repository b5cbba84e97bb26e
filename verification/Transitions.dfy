/** The abstract protocol read from where a coordinator arrives: for each program counter, from where, when and with
    what change of the durable state it is entered.  `DModel` generates the transitions from where a coordinator is. */
module Transitions {
  import opened Identity
  import opened DModel

  /** The durable state changes to `t` and coordinator `i` to `c`. */
  ghost predicate Becomes(s: State, i: nat, t: State, c: Coord, s': State)
    requires i < |s.c|
  {
    s' == t.(c := s.c[i := c])
  }

  /** The coordinator holds the newest epoch. */
  ghost predicate Current(s: State, i: nat)
    requires i < |s.c|
  {
    s.c[i].known == Some(s.ownerEpoch)
  }

  /** Another epoch's claim is in the way of an uncommitted action. */
  ghost predicate Blocked(s: State, i: nat)
    requires i < |s.c|
  {
    !s.committed && s.claimedBy != 0 && Some(s.claimedBy) != s.c[i].known
  }

  /** How each program counter is entered. */
  ghost predicate Enters(s: State, klass: Klass, bound: nat, i: nat, pc: Pc, s': State)
    requires i < |s.c|
  {
    var Coord(known, from) := s.c[i];
    match pc
    case Start =>      // a crash, from anywhere else
      from != Start && Becomes(s, i, s, Coord(None, Start), s')
    case Acquired =>   // the next epoch
      && from == Start && s.ownerEpoch < bound
      && Becomes(s, i, s.(ownerEpoch := s.ownerEpoch + 1), Coord(Some(s.ownerEpoch + 1), Acquired), s')
    case Claimed =>    // the claim of an action nobody else has claimed
      && from == Acquired && Current(s, i) && !s.committed && !Blocked(s, i) && klass != Transactional
      && Becomes(s, i, s.(claimedBy := s.ownerEpoch), Coord(known, Claimed), s')
    case Effecting =>  // the effect of a claimed action begins
      && from == Claimed && Current(s, i) && !s.committed
      && Becomes(s, i, s.(effectStarted := true), Coord(known, Effecting), s')
    case Done =>
      && Current(s, i)
      && if from == Acquired && s.committed then Becomes(s, i, s, Coord(known, Done), s')
         else if from == Acquired && klass == Transactional then
           var t := s.(claimedBy := s.ownerEpoch, committed := true, durableEffect := s.durableEffect + 1);
           Becomes(s, i, t, Coord(known, Done), s')
         else
           var absorbed := klass == Idempotent || klass == Overlay;
           var t := s.(committed := true, durableEffect := if absorbed then 1 else s.durableEffect + 1);
           from == Effecting && Becomes(s, i, t, Coord(known, Done), s')
    case Stale =>      // nothing changes
      && from == Acquired && (!Current(s, i) || (Blocked(s, i) && klass != Transactional))
      && Becomes(s, i, s, Coord(known, Stale), s')
    case Uncertain =>  // the effect under another claim may have happened
      && from == Acquired && Current(s, i) && Blocked(s, i) && klass == Irreversible && s.effectStarted
      && Becomes(s, i, s.(uncertain := true), Coord(known, Uncertain), s')
  }

  ghost predicate Transition(s: State, klass: Klass, bound: nat, i: nat, s': State) {
    i < |s.c| && exists pc :: Enters(s, klass, bound, i, pc, s')
  }

  lemma CrashEnters(s: State, klass: Klass, bound: nat, i: nat, s': State)
    requires i < |s.c| && s' in Crash(s, i)
    ensures |s'.c| == |s.c| && Enters(s, klass, bound, i, s'.c[i].pc, s')
  {
  }

  lemma AcquireEnters(s: State, klass: Klass, bound: nat, i: nat, s': State)
    requires i < |s.c| && s' in Acquire(s, bound, i)
    ensures |s'.c| == |s.c| && Enters(s, klass, bound, i, s'.c[i].pc, s')
  {
  }

  lemma BeginEffectEnters(s: State, klass: Klass, bound: nat, i: nat, s': State)
    requires i < |s.c| && s' in BeginEffect(s, i)
    ensures |s'.c| == |s.c| && Enters(s, klass, bound, i, s'.c[i].pc, s')
  {
  }

  lemma CommitEnters(s: State, klass: Klass, bound: nat, i: nat, s': State)
    requires i < |s.c| && s' in Commit(s, klass, i)
    ensures |s'.c| == |s.c| && Enters(s, klass, bound, i, s'.c[i].pc, s')
  {
  }

  lemma FailClosedEnters(s: State, klass: Klass, bound: nat, i: nat, s': State)
    requires i < |s.c| && s' in FailClosed(s, klass, i)
    ensures |s'.c| == |s.c| && Enters(s, klass, bound, i, s'.c[i].pc, s')
  {
  }

  lemma ActEnters(s: State, klass: Klass, bound: nat, i: nat, s': State)
    requires i < |s.c| && s.c[i].pc == Acquired && s' in AtAcquired(s, klass, i)
    ensures |s'.c| == |s.c| && Enters(s, klass, bound, i, s'.c[i].pc, s')
  {
  }

  lemma EnteredBy(s: State, klass: Klass, bound: nat, i: nat, s': State)
    requires Moves(s, klass, bound, i, s')
    ensures |s'.c| == |s.c| && Enters(s, klass, bound, i, s'.c[i].pc, s')
  {
    hide Enters, Crash, Acquire, BeginEffect, Commit, FailClosed, AtAcquired;
    if s' in Crash(s, i) {
      CrashEnters(s, klass, bound, i, s');
    } else if s' in Acquire(s, bound, i) {
      AcquireEnters(s, klass, bound, i, s');
    } else if s' in BeginEffect(s, i) {
      BeginEffectEnters(s, klass, bound, i, s');
    } else if s' in Commit(s, klass, i) {
      CommitEnters(s, klass, bound, i, s');
    } else if s' in FailClosed(s, klass, i) {
      FailClosedEnters(s, klass, bound, i, s');
    } else {
      ActEnters(s, klass, bound, i, s');
    }
  }

  lemma EntersMoves(s: State, klass: Klass, bound: nat, i: nat, pc: Pc, s': State)
    requires i < |s.c| && Enters(s, klass, bound, i, pc, s')
    ensures Moves(s, klass, bound, i, s') && |s'.c| == |s.c| && s'.c[i].pc == pc
  {
  }

  /** THE TRANSITION RELATION, both ways and from every state of every class: what is generated from where a coordinator
      is, is what is allowed by where it arrives. */
  lemma MovesAre(s: State, klass: Klass, bound: nat, i: nat, s': State)
    ensures Moves(s, klass, bound, i, s') <==> Transition(s, klass, bound, i, s')
    ensures Moves(s, klass, bound, i, s') ==> |s'.c| == |s.c| && Enters(s, klass, bound, i, s'.c[i].pc, s')
  {
    hide Enters;
    if Moves(s, klass, bound, i, s') {
      EnteredBy(s, klass, bound, i, s');
    }
    if Transition(s, klass, bound, i, s') {
      var pc :| Enters(s, klass, bound, i, pc, s');
      EntersMoves(s, klass, bound, i, pc, s');
    }
  }

  /** The successors of a state, over all coordinators. */
  lemma SuccessorsAreTransitions(s: State, klass: Klass, bound: nat, s': State)
    ensures s' in Successors(s, klass, bound) <==> exists i: nat :: Transition(s, klass, bound, i, s')
  {
    SuccessorsAre(s, klass, bound, s');
    hide Successors, Moves, Transition;
    if i: nat :| Moves(s, klass, bound, i, s') {
      MovesAre(s, klass, bound, i, s');
      assert Transition(s, klass, bound, i, s');
    }
    if i: nat :| Transition(s, klass, bound, i, s') {
      MovesAre(s, klass, bound, i, s');
      assert Moves(s, klass, bound, i, s');
    }
  }

  // ---- what follows ----

  /** FINDING IT COMMITTED, in every class: a coordinator that has just acquired the newest epoch has exactly two moves,
      to crash and to be done, and neither changes anything else. */
  lemma CommittedIsLearnt(s: State, klass: Klass, bound: nat, i: nat, s': State)
    requires i < |s.c| && s.c[i] == Coord(Some(s.ownerEpoch), Acquired) && s.committed
    ensures Moves(s, klass, bound, i, s') <==>
            s' == s.(c := s.c[i := Coord(None, Start)]) || s' == s.(c := s.c[i := Coord(Some(s.ownerEpoch), Done)])
  {
    MovesAre(s, klass, bound, i, s');
    hide Moves;
    if s' == s.(c := s.c[i := Coord(None, Start)]) {
      assert Enters(s, klass, bound, i, Start, s');
    }
    if s' == s.(c := s.c[i := Coord(Some(s.ownerEpoch), Done)]) {
      assert Enters(s, klass, bound, i, Done, s');
    }
  }

  /** WHEN A COORDINATOR BACKS OFF: it has acquired, and its epoch has been superseded, or the action is uncommitted
      and claimed under another epoch in a class that claims before it acts. */
  lemma BacksOffIff(s: State, klass: Klass, bound: nat, i: nat)
    requires i < |s.c|
    ensures Moves(s, klass, bound, i, s.(c := s.c[i := s.c[i].(pc := Stale)])) <==>
            && s.c[i].pc == Acquired
            && (!Current(s, i) || (Blocked(s, i) && klass != Transactional))
    ensures forall s' :: Moves(s, klass, bound, i, s') && |s'.c| == |s.c| && s'.c[i].pc == Stale ==>
              s' == s.(c := s.c[i := s.c[i].(pc := Stale)])
  {
    var stale := s.(c := s.c[i := s.c[i].(pc := Stale)]);
    MovesAre(s, klass, bound, i, stale);
    hide Moves;
    if s.c[i].pc == Acquired && (!Current(s, i) || (Blocked(s, i) && klass != Transactional)) {
      assert Enters(s, klass, bound, i, Stale, stale);
    }
    forall s' | Moves(s, klass, bound, i, s') && |s'.c| == |s.c| && s'.c[i].pc == Stale ensures s' == stale {
      MovesAre(s, klass, bound, i, s');
    }
  }

  /** From every reachable state in which the action is committed a new owner learns it with one more epoch, in every
      class, and the effect stays as it is. */
  lemma NewOwnerLearns(s: State, n: nat, klass: Klass, bound: nat) returns (p: seq<State>, t: State)
    requires Reachable(s, n, klass, bound) && s.committed && n > 0
    ensures PathBetween(p, s, t, klass, s.ownerEpoch + 1)
    ensures t.ownerEpoch == s.ownerEpoch + 1 && t.c != [] && t.c[0] == Coord(Some(t.ownerEpoch), Done)
    ensures t.committed && t.durableEffect == s.durableEffect == 1 && t.claimedBy == s.claimedBy
  {
    ReachableInv(s, n, klass, bound);
    var r, u := FreshOwner(s, klass);
    t := u.(c := u.c[0 := Coord(Some(u.ownerEpoch), Done)]);
    CommittedIsLearnt(u, klass, u.ownerEpoch, 0, t);
    p := Extend(r, s, u, klass, u.ownerEpoch, 0, t);
  }
}
