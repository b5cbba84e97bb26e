/** The abstract protocol for one action of one tool class, with any number of coordinators and any
    bound on the epochs. */
module DModel {
  import opened Identity

  datatype Klass = Transactional | Idempotent | Overlay | Irreversible
  datatype Pc = Start | Acquired | Claimed | Effecting | Done | Stale | Uncertain

  /** A coordinator: the epoch it knows and its program counter. */
  datatype Coord = Coord(known: Option<nat>, pc: Pc)

  /** Epoch 0 stands for no owner and for no claim. */
  datatype State = State(ownerEpoch: nat, claimedBy: nat, effectStarted: bool, committed: bool,
                         durableEffect: nat, uncertain: bool, c: seq<Coord>)

  const MAX_EPOCH: nat := 5

  function Initial(n: nat): State {
    State(0, 0, false, false, 0, false, seq(n, _ => Coord(None, Start)))
  }

  function WithC(s: State, i: nat, known: Option<nat>, pc: Pc): State
    requires i < |s.c|
  {
    s.(c := s.c[i := Coord(known, pc)])
  }

  predicate Fenced(s: State, i: nat)
    requires i < |s.c|
  {
    s.c[i].known != Some(s.ownerEpoch)
  }

  function AtAcquired(s: State, klass: Klass, i: nat): seq<State>
    requires i < |s.c| && s.c[i].pc.Acquired?
  {
    var known := s.c[i].known;
    if Fenced(s, i) then
      [WithC(s, i, known, Stale)]
    else if s.committed then
      [WithC(s, i, known, Done)]
    else if klass.Transactional? then
      [WithC(s.(claimedBy := known.value, committed := true, durableEffect := s.durableEffect + 1), i, known, Done)]
    else if s.claimedBy == 0 then
      [WithC(s.(claimedBy := known.value), i, known, Claimed)]
    else if s.claimedBy == known.value then
      [WithC(s, i, known, Claimed)]
    else
      [WithC(s, i, known, Stale)]
  }

  function Min(a: nat, b: nat): nat {
    if a < b then a else b
  }

  /** A re-done idempotent or overlay effect is absorbed by the external mechanism. */
  function EffectCount(klass: Klass, effects: nat): nat {
    if klass.Idempotent? || klass.Overlay? then Min(1, effects + 1) else effects + 1
  }

  /** A crash at any non-start point: the process forgets its epoch, durable state persists. */
  function Crash(s: State, i: nat): seq<State>
    requires i < |s.c|
  {
    if s.c[i].pc != Start then [WithC(s, i, None, Start)] else []
  }

  function Acquire(s: State, bound: nat, i: nat): seq<State>
    requires i < |s.c|
  {
    if s.c[i].pc == Start && s.ownerEpoch < bound then
      [WithC(s.(ownerEpoch := s.ownerEpoch + 1), i, Some(s.ownerEpoch + 1), Acquired)]
    else []
  }

  function BeginEffect(s: State, i: nat): seq<State>
    requires i < |s.c|
  {
    if s.c[i].pc == Claimed && !Fenced(s, i) && !s.committed then
      [WithC(s.(effectStarted := true), i, s.c[i].known, Effecting)]
    else []
  }

  function Commit(s: State, klass: Klass, i: nat): seq<State>
    requires i < |s.c|
  {
    if s.c[i].pc == Effecting && !Fenced(s, i) then
      [WithC(s.(durableEffect := EffectCount(klass, s.durableEffect), committed := true), i, s.c[i].known, Done)]
    else []
  }

  /** Recovery that meets an effect begun under another claim fails closed. */
  function FailClosed(s: State, klass: Klass, i: nat): seq<State>
    requires i < |s.c|
  {
    if s.c[i].pc == Acquired && !Fenced(s, i) && !s.committed && s.claimedBy != 0 && Some(s.claimedBy) != s.c[i].known
       && klass.Irreversible? && s.effectStarted then
      [WithC(s.(uncertain := true), i, s.c[i].known, Uncertain)]
    else []
  }

  /** The transitions of coordinator `i`, in the order in which they are generated. */
  function CoordSuccessors(s: State, klass: Klass, bound: nat, i: nat): seq<State>
    requires i < |s.c|
  {
    Crash(s, i)
    + Acquire(s, bound, i)
    + (if s.c[i].pc == Acquired then AtAcquired(s, klass, i) else [])
    + BeginEffect(s, i)
    + Commit(s, klass, i)
    + FailClosed(s, klass, i)
  }

  function Flatten<T>(lists: seq<seq<T>>): seq<T> {
    if lists == [] then [] else lists[0] + Flatten(lists[1..])
  }

  lemma {:induction false} InFlatten<T>(lists: seq<seq<T>>, x: T)
    ensures x in Flatten(lists) <==> exists i :: 0 <= i < |lists| && x in lists[i]
  {
    if lists != [] {
      InFlatten(lists[1..], x);
      assert forall i :: 0 <= i < |lists| - 1 ==> lists[1..][i] == lists[i + 1];
      if x in Flatten(lists[1..]) {
        var i :| 0 <= i < |lists[1..]| && x in lists[1..][i];
        assert x in lists[i + 1];
      }
      if i :| 0 <= i < |lists| && x in lists[i] {
        assert i == 0 || x in lists[1..][i - 1];
      }
    }
  }

  function Successors(s: State, klass: Klass, bound: nat): seq<State> {
    Flatten(seq(|s.c|, i requires 0 <= i < |s.c| => CoordSuccessors(s, klass, bound, i)))
  }

  ghost predicate Moves(s: State, klass: Klass, bound: nat, i: nat, s': State) {
    i < |s.c| && s' in CoordSuccessors(s, klass, bound, i)
  }

  /** A successor is a move of one coordinator. */
  lemma SuccessorsAre(s: State, klass: Klass, bound: nat, s': State)
    ensures s' in Successors(s, klass, bound) <==> exists i: nat :: Moves(s, klass, bound, i, s')
  {
    var lists := seq(|s.c|, i requires 0 <= i < |s.c| => CoordSuccessors(s, klass, bound, i));
    InFlatten(lists, s');
    if i: nat :| Moves(s, klass, bound, i, s') {
      assert s' in lists[i];
    }
    if i :| 0 <= i < |lists| && s' in lists[i] {
      assert Moves(s, klass, bound, i, s');
    }
  }

  ghost predicate Path(p: seq<State>, klass: Klass, bound: nat) {
    p != [] && forall i :: 0 <= i < |p| - 1 ==> p[i + 1] in Successors(p[i], klass, bound)
  }

  ghost predicate PathBetween(p: seq<State>, s: State, t: State, klass: Klass, bound: nat) {
    Path(p, klass, bound) && p[0] == s && p[|p| - 1] == t
  }

  ghost predicate Reachable(s: State, n: nat, klass: Klass, bound: nat) {
    exists p :: PathBetween(p, Initial(n), s, klass, bound)
  }

  // ---- the inductive invariant ----

  ghost predicate CoordInv(s: State, klass: Klass, i: nat)
    requires i < |s.c|
  {
    var Coord(known, pc) := s.c[i];
    && (pc == Start <==> known.None?)
    && (known.Some? ==> 1 <= known.value <= s.ownerEpoch)
    && (pc == Claimed || pc == Effecting ==> known == Some(s.claimedBy) && !s.committed && !klass.Transactional?)
    && (pc == Effecting ==> s.effectStarted)
    && (known == Some(s.claimedBy) ==> pc == Claimed || pc == Effecting || pc == Done)
    && (pc == Done ==> s.committed)
    && (pc == Uncertain ==> s.uncertain)
  }

  ghost predicate Inv(s: State, klass: Klass) {
    && (forall i :: 0 <= i < |s.c| ==> CoordInv(s, klass, i))
    && (forall i, j :: 0 <= i < |s.c| && 0 <= j < |s.c| && s.c[i].known.Some? && s.c[i].known == s.c[j].known ==>
        i == j)
    && s.claimedBy <= s.ownerEpoch
    && s.durableEffect == (if s.committed then 1 else 0)
    && (s.committed ==> s.claimedBy != 0)
    && (klass.Transactional? && s.claimedBy != 0 ==> s.committed)
    && (s.effectStarted ==> s.claimedBy != 0 && !klass.Transactional?)
    && (s.uncertain ==> klass.Irreversible? && !s.committed && 0 < s.claimedBy < s.ownerEpoch)
  }

  /** Invariants of a new state whose coordinators other than `i` are as before. */
  lemma Reassemble(s: State, klass: Klass, i: nat, s': State)
    requires Inv(s, klass) && i < |s.c| && |s'.c| == |s.c| && s'.c == s.c[i := s'.c[i]]
    requires s.ownerEpoch <= s'.ownerEpoch && (s.committed ==> s'.committed)
    requires (s.effectStarted ==> s'.effectStarted) && (s.uncertain ==> s'.uncertain)
    requires forall j :: 0 <= j < |s.c| && j != i ==>
               || s'.claimedBy == s.claimedBy
               || (s.c[j].known != Some(s'.claimedBy) && s.c[j].pc != Claimed && s.c[j].pc != Effecting)
    requires forall j :: 0 <= j < |s.c| && j != i && (s.c[j].pc == Claimed || s.c[j].pc == Effecting) ==> !s'.committed
    requires CoordInv(s', klass, i)
    requires s'.c[i].known == s.c[i].known || s'.c[i].known.None? || s'.c[i].known.value > s.ownerEpoch
    ensures forall j :: 0 <= j < |s'.c| ==> CoordInv(s', klass, j)
    ensures forall j, k ::
              0 <= j < |s'.c| && 0 <= k < |s'.c| && s'.c[j].known.Some? && s'.c[j].known == s'.c[k].known ==> j == k
  {
    forall j | 0 <= j < |s'.c|
      ensures CoordInv(s', klass, j) && (j != i ==> s'.c[j] == s.c[j] && CoordInv(s, klass, j))
    {
      if j != i {
        assert CoordInv(s, klass, j);
      }
    }
  }

  /** Nobody else is at `claimed` or `effecting` unless it holds the claim of an uncommitted action. */
  lemma OthersAt(s: State, klass: Klass, i: nat)
    requires Inv(s, klass) && i < |s.c|
    ensures forall j :: 0 <= j < |s.c| && j != i && (s.c[j].pc == Claimed || s.c[j].pc == Effecting) ==>
              s.c[j].known == Some(s.claimedBy) && s.claimedBy != 0 && !s.committed && !klass.Transactional?
  {
    forall j | 0 <= j < |s.c| && j != i && (s.c[j].pc == Claimed || s.c[j].pc == Effecting)
      ensures s.c[j].known == Some(s.claimedBy) && s.claimedBy != 0 && !s.committed && !klass.Transactional?
    {
      assert CoordInv(s, klass, j);
    }
  }

  lemma CrashKeepsInv(s: State, klass: Klass, bound: nat, i: nat, s': State)
    requires Inv(s, klass) && i < |s.c| && s' in Crash(s, i)
    ensures Inv(s', klass) && |s'.c| == |s.c| && (s.ownerEpoch <= bound ==> s'.ownerEpoch <= bound)
  {
    assert CoordInv(s, klass, i);
    OthersAt(s, klass, i);
    Reassemble(s, klass, i, s');
  }

  lemma AcquireKeepsInv(s: State, klass: Klass, bound: nat, i: nat, s': State)
    requires Inv(s, klass) && i < |s.c| && s' in Acquire(s, bound, i)
    ensures Inv(s', klass) && |s'.c| == |s.c| && (s.ownerEpoch <= bound ==> s'.ownerEpoch <= bound)
  {
    assert CoordInv(s, klass, i);
    OthersAt(s, klass, i);
    Reassemble(s, klass, i, s');
  }

  lemma BeginEffectKeepsInv(s: State, klass: Klass, bound: nat, i: nat, s': State)
    requires Inv(s, klass) && i < |s.c| && s' in BeginEffect(s, i)
    ensures Inv(s', klass) && |s'.c| == |s.c| && (s.ownerEpoch <= bound ==> s'.ownerEpoch <= bound)
  {
    assert CoordInv(s, klass, i);
    OthersAt(s, klass, i);
    Reassemble(s, klass, i, s');
  }

  lemma CommitKeepsInv(s: State, klass: Klass, bound: nat, i: nat, s': State)
    requires Inv(s, klass) && i < |s.c| && s' in Commit(s, klass, i)
    ensures Inv(s', klass) && |s'.c| == |s.c| && (s.ownerEpoch <= bound ==> s'.ownerEpoch <= bound)
  {
    assert CoordInv(s, klass, i);
    OthersAt(s, klass, i);
    Reassemble(s, klass, i, s');
  }

  lemma FailClosedKeepsInv(s: State, klass: Klass, bound: nat, i: nat, s': State)
    requires Inv(s, klass) && i < |s.c| && s' in FailClosed(s, klass, i)
    ensures Inv(s', klass) && |s'.c| == |s.c| && (s.ownerEpoch <= bound ==> s'.ownerEpoch <= bound)
  {
    assert CoordInv(s, klass, i);
    OthersAt(s, klass, i);
    Reassemble(s, klass, i, s');
  }

  lemma ActKeepsInv(s: State, klass: Klass, bound: nat, i: nat, s': State)
    requires Inv(s, klass) && i < |s.c| && s.c[i].pc.Acquired? && s' in AtAcquired(s, klass, i)
    ensures Inv(s', klass) && |s'.c| == |s.c| && (s.ownerEpoch <= bound ==> s'.ownerEpoch <= bound)
  {
    assert CoordInv(s, klass, i);
    OthersAt(s, klass, i);
    Reassemble(s, klass, i, s');
  }

  lemma MoveKeepsInv(s: State, klass: Klass, bound: nat, i: nat, s': State)
    requires Inv(s, klass) && Moves(s, klass, bound, i, s')
    ensures Inv(s', klass) && |s'.c| == |s.c| && (s.ownerEpoch <= bound ==> s'.ownerEpoch <= bound)
  {
    hide Inv, Crash, Acquire, BeginEffect, Commit, FailClosed, AtAcquired;
    if s' in Crash(s, i) {
      CrashKeepsInv(s, klass, bound, i, s');
    } else if s' in Acquire(s, bound, i) {
      AcquireKeepsInv(s, klass, bound, i, s');
    } else if s' in BeginEffect(s, i) {
      BeginEffectKeepsInv(s, klass, bound, i, s');
    } else if s' in Commit(s, klass, i) {
      CommitKeepsInv(s, klass, bound, i, s');
    } else if s' in FailClosed(s, klass, i) {
      FailClosedKeepsInv(s, klass, bound, i, s');
    } else {
      ActKeepsInv(s, klass, bound, i, s');
    }
  }

  lemma {:induction false} PathKeepsInv(p: seq<State>, s: State, t: State, klass: Klass, bound: nat)
    requires PathBetween(p, s, t, klass, bound) && Inv(s, klass)
    ensures Inv(t, klass) && |t.c| == |s.c| && (s.ownerEpoch <= bound ==> t.ownerEpoch <= bound)
    decreases |p|
  {
    if |p| > 1 {
      var u := p[|p| - 2];
      assert PathBetween(p[..|p| - 1], s, u, klass, bound);
      PathKeepsInv(p[..|p| - 1], s, u, klass, bound);
      SuccessorsAre(u, klass, bound, t);
      var i: nat :| Moves(u, klass, bound, i, t);
      MoveKeepsInv(u, klass, bound, i, t);
    }
  }

  lemma ReachableInv(s: State, n: nat, klass: Klass, bound: nat)
    requires Reachable(s, n, klass, bound)
    ensures Inv(s, klass) && |s.c| == n && s.ownerEpoch <= bound
  {
    var p :| PathBetween(p, Initial(n), s, klass, bound);
    PathKeepsInv(p, Initial(n), s, klass, bound);
  }

  /** SAFETY, for every class, number of coordinators and bound: at most one effect, and the action is
      recorded as committed exactly when the effect happened. */
  lemma CommittedIffOneEffect(s: State, n: nat, klass: Klass, bound: nat)
    requires Reachable(s, n, klass, bound)
    ensures s.durableEffect <= 1 && (s.committed <==> s.durableEffect == 1)
  {
    ReachableInv(s, n, klass, bound);
  }

  /** Only the current owner fires the effect, the claim is written at most once, and nothing that
      was recorded is taken back. */
  lemma OnlyTheOwnerActs(s: State, n: nat, klass: Klass, bound: nat, i: nat, s': State)
    requires Reachable(s, n, klass, bound) && Moves(s, klass, bound, i, s')
    ensures s'.durableEffect != s.durableEffect || s'.claimedBy != s.claimedBy ==> s.c[i].known == Some(s.ownerEpoch)
    ensures s.claimedBy != 0 ==> s'.claimedBy == s.claimedBy
    ensures s'.durableEffect != s.durableEffect ==> s'.claimedBy == s.ownerEpoch && !s.committed && s'.committed
    ensures s.committed ==> s'.committed && s'.durableEffect == s.durableEffect
  {
    ReachableInv(s, n, klass, bound);
    assert CoordInv(s, klass, i);
  }

  /** A coordinator that has just acquired never finds its own claim: the branch for it is dead. */
  lemma OwnClaimIsNeverMet(s: State, n: nat, klass: Klass, bound: nat, i: nat)
    requires Reachable(s, n, klass, bound) && i < |s.c| && s.c[i].pc.Acquired?
    ensures s.c[i].known != Some(s.claimedBy)
  {
    ReachableInv(s, n, klass, bound);
    assert CoordInv(s, klass, i);
  }

  // ---- ambiguity ----

  /** The claimant is gone or overtaken before the action was committed. */
  ghost predicate Stranded(s: State) {
    && s.claimedBy != 0 && !s.committed
    && (s.claimedBy < s.ownerEpoch || forall i :: 0 <= i < |s.c| ==> s.c[i].known != Some(s.claimedBy))
  }

  lemma StrandedStays(s: State, klass: Klass, bound: nat, i: nat, s': State)
    requires Inv(s, klass) && Stranded(s) && Moves(s, klass, bound, i, s')
    ensures Stranded(s') && s'.durableEffect == s.durableEffect && (s.uncertain ==> s'.uncertain)
    ensures s'.effectStarted == s.effectStarted
    ensures s'.uncertain ==> s.uncertain || (klass.Irreversible? && s.effectStarted)
  {
    assert CoordInv(s, klass, i);
  }

  /** A stranded action is never committed and its effect never fires, whatever happens next. */
  lemma {:induction false} StrandedNeverCommits(p: seq<State>, s: State, t: State, n: nat, klass: Klass, bound: nat,
                                                bound': nat)
    requires Reachable(s, n, klass, bound) && Stranded(s) && PathBetween(p, s, t, klass, bound')
    ensures Inv(t, klass) && Stranded(t) && t.durableEffect == 0 && (s.uncertain ==> t.uncertain)
    ensures t.effectStarted == s.effectStarted
    ensures t.uncertain ==> s.uncertain || (klass.Irreversible? && s.effectStarted)
    decreases |p|
  {
    ReachableInv(s, n, klass, bound);
    if |p| > 1 {
      var u := p[|p| - 2];
      assert PathBetween(p[..|p| - 1], s, u, klass, bound');
      StrandedNeverCommits(p[..|p| - 1], s, u, n, klass, bound, bound');
      SuccessorsAre(u, klass, bound', t);
      var i: nat :| Moves(u, klass, bound', i, t);
      StrandedStays(u, klass, bound', i, t);
      MoveKeepsInv(u, klass, bound', i, t);
    }
  }

  /** FAIL CLOSED: a surfaced UNCERTAIN means no effect, and none ever after. */
  lemma UncertainIsFinal(p: seq<State>, s: State, t: State, n: nat, klass: Klass, bound: nat, bound': nat)
    requires Reachable(s, n, klass, bound) && s.uncertain && PathBetween(p, s, t, klass, bound')
    ensures klass.Irreversible? && t.uncertain && !t.committed && t.durableEffect == 0
  {
    ReachableInv(s, n, klass, bound);
    StrandedNeverCommits(p, s, t, n, klass, bound, bound');
  }

  lemma Extend(p: seq<State>, s: State, t: State, klass: Klass, bound: nat, i: nat, t': State) returns (p': seq<State>)
    requires PathBetween(p, s, t, klass, bound) && Moves(t, klass, bound, i, t')
    ensures PathBetween(p', s, t', klass, bound)
  {
    SuccessorsAre(t, klass, bound, t');
    hide Successors, Moves;
    p' := p + [t'];
  }

  /** From a claim that its owner still holds, the owner alone reaches the commit. */
  lemma HolderCommits(p: seq<State>, s: State, t: State, klass: Klass, bound: nat, i: nat)
    returns (p': seq<State>, u: State)
    requires PathBetween(p, s, t, klass, bound) && Inv(t, klass) && i < |t.c| && !t.committed && !klass.Transactional?
    requires t.c[i].known == Some(t.ownerEpoch) && t.claimedBy == t.ownerEpoch
    ensures PathBetween(p', s, u, klass, bound) && u.committed
  {
    assert CoordInv(t, klass, i);
    p', u := p, t;
    if u.c[i].pc == Claimed {
      var v := WithC(u.(effectStarted := true), i, u.c[i].known, Effecting);
      p' := Extend(p', s, u, klass, bound, i, v);
      u := v;
    }
    var w := WithC(u.(durableEffect := EffectCount(klass, u.durableEffect), committed := true), i, u.c[i].known, Done);
    p' := Extend(p', s, u, klass, bound, i, w);
    u := w;
  }

  /** One move, with the invariant. */
  lemma Advance(p: seq<State>, s: State, t: State, klass: Klass, bound: nat, i: nat, t': State) returns (p': seq<State>)
    requires PathBetween(p, s, t, klass, bound) && Inv(t, klass) && Moves(t, klass, bound, i, t')
    ensures PathBetween(p', s, t', klass, bound) && Inv(t', klass) && |t'.c| == |t.c|
  {
    p' := Extend(p, s, t, klass, bound, i, t');
    MoveKeepsInv(t, klass, bound, i, t');
  }

  /** The first coordinator, restarted if need be, takes the next epoch. */
  lemma FreshOwner(s: State, klass: Klass) returns (p: seq<State>, t: State)
    requires Inv(s, klass) && s.c != []
    ensures PathBetween(p, s, t, klass, s.ownerEpoch + 1) && Inv(t, klass) && |t.c| == |s.c|
    ensures t.claimedBy == s.claimedBy && t.committed == s.committed && t.ownerEpoch == s.ownerEpoch + 1
    ensures t.effectStarted == s.effectStarted && t.uncertain == s.uncertain
    ensures t.c[0] == Coord(Some(t.ownerEpoch), Acquired)
  {
    var limit := s.ownerEpoch + 1;
    p, t := [s], s;
    if s.c[0].pc != Start {
      t := WithC(s, 0, None, Start);
      p := Advance(p, s, s, klass, limit, 0, t);
    }
    assert CoordInv(t, klass, 0);
    var w := WithC(t.(ownerEpoch := limit), 0, Some(limit), Acquired);
    hide Inv, PathBetween;
    p := Advance(p, s, t, klass, limit, 0, w);
    t := w;
  }

  /** Being stranded is the only obstacle: in every other state some continuation commits the action,
      using at most one more epoch. */
  lemma OtherwiseCanCommit(s: State, n: nat, klass: Klass, bound: nat) returns (p: seq<State>, t: State)
    requires Reachable(s, n, klass, bound) && !Stranded(s) && n > 0
    ensures PathBetween(p, s, t, klass, s.ownerEpoch + 1) && t.committed
  {
    var limit := s.ownerEpoch + 1;
    ReachableInv(s, n, klass, bound);
    if s.committed {
      p, t := [s], s;
    } else if s.claimedBy != 0 {
      var i :| 0 <= i < |s.c| && s.c[i].known == Some(s.claimedBy);
      p, t := HolderCommits([s], s, s, klass, limit, i);
    } else {
      hide Inv, PathBetween, Reachable;
      p, t := FreshOwner(s, klass);
      var x := AtAcquired(t, klass, 0)[0];
      p := Advance(p, s, t, klass, limit, 0, x);
      t := x;
      if !klass.Transactional? {
        p, t := HolderCommits(p, s, t, klass, limit, 0);
      }
    }
  }

  // ---- what surfaces ----

  /** Some continuation, with some number of further epochs, surfaces the action as uncertain. */
  ghost predicate CanSurface(s: State, klass: Klass) {
    exists p, t, bound: nat :: PathBetween(p, s, t, klass, bound) && t.uncertain
  }

  /** A new owner meets a stranded claim: it may always back off; it may surface UNCERTAIN if the class is
      irreversible and the effect was begun. */
  lemma NewOwnerMeetsClaim(s: State, n: nat, klass: Klass, bound: nat)
    returns (p: seq<State>, stale: State, q: seq<State>, surfaced: State)
    requires Reachable(s, n, klass, bound) && Stranded(s) && n > 0
    ensures PathBetween(p, s, stale, klass, s.ownerEpoch + 1)
    ensures stale.c != [] && stale.c[0] == Coord(Some(stale.ownerEpoch), Stale) && stale.uncertain == s.uncertain
    ensures klass.Irreversible? && s.effectStarted ==>
              PathBetween(q, s, surfaced, klass, s.ownerEpoch + 1) && surfaced.uncertain
  {
    var limit := s.ownerEpoch + 1;
    ReachableInv(s, n, klass, bound);
    var r, t := FreshOwner(s, klass);
    hide PathBetween, Reachable;
    stale := WithC(t, 0, t.c[0].known, Stale);
    assert stale == AtAcquired(t, klass, 0)[0];
    p := Extend(r, s, t, klass, limit, 0, stale);
    q, surfaced := r, t;
    if klass.Irreversible? && s.effectStarted {
      surfaced := WithC(t.(uncertain := true), 0, t.c[0].known, Uncertain);
      assert surfaced == FailClosed(t, klass, 0)[0];
      q := Extend(r, s, t, klass, limit, 0, surfaced);
    }
  }

  /** WHEN UNCERTAIN SURFACES, exactly: a stranded action that has not surfaced can surface if and only if its class
      is irreversible and its effect was begun; and it never has to, since a new owner can always back off as
      stale and leave it as it was. */
  lemma SurfacesIff(s: State, n: nat, klass: Klass, bound: nat) returns (p: seq<State>, stale: State)
    requires Reachable(s, n, klass, bound) && Stranded(s) && !s.uncertain && n > 0
    ensures CanSurface(s, klass) <==> klass.Irreversible? && s.effectStarted
    ensures PathBetween(p, s, stale, klass, s.ownerEpoch + 1)
    ensures stale.c != [] && stale.c[0].pc.Stale? && !stale.uncertain && Stranded(stale)
  {
    var q, surfaced;
    p, stale, q, surfaced := NewOwnerMeetsClaim(s, n, klass, bound);
    StrandedNeverCommits(p, s, stale, n, klass, bound, s.ownerEpoch + 1);
    if klass.Irreversible? && s.effectStarted {
      assert PathBetween(q, s, surfaced, klass, s.ownerEpoch + 1) && surfaced.uncertain;
    }
    if q', t, bound': nat :| PathBetween(q', s, t, klass, bound') && t.uncertain {
      StrandedNeverCommits(q', s, t, n, klass, bound, bound');
    }
  }

  /** The ambiguous window is reached: an irreversible effect is begun, its owner crashes, and nothing has surfaced. */
  lemma AmbiguityIsReachable(n: nat) returns (s: State)
    requires n > 0
    ensures Reachable(s, n, Irreversible, 1) && Stranded(s) && s.effectStarted && !s.uncertain
  {
    var s0 := Initial(n);
    var s1 := WithC(s0.(ownerEpoch := 1), 0, Some(1), Acquired);
    var s2 := WithC(s1.(claimedBy := 1), 0, Some(1), Claimed);
    var s3 := WithC(s2.(effectStarted := true), 0, Some(1), Effecting);
    s := WithC(s3, 0, None, Start);
    assert PathBetween([s0], s0, s0, Irreversible, 1);
    assert s1 == Acquire(s0, 1, 0)[0];
    var p := Extend([s0], s0, s0, Irreversible, 1, 0, s1);
    assert s2 == AtAcquired(s1, Irreversible, 0)[0];
    p := Extend(p, s0, s1, Irreversible, 1, 0, s2);
    assert s3 == BeginEffect(s2, 0)[0];
    p := Extend(p, s0, s2, Irreversible, 1, 0, s3);
    assert s == Crash(s3, 0)[0];
    p := Extend(p, s0, s3, Irreversible, 1, 0, s);
  }
}
