/** The turn protocol over log prefixes: one action, a log, the external effect, and recovery by re-running
    whatever the log does not record.

    An attempt may die after any number of loop iterations; any number of attempts may die. */
module WalRecovery {
  type Key = string

  datatype RecType = BeginTurn | ActionCommitted | ObservationCommitted | TurnCommitted
  datatype Rec = Rec(lsn: nat, kind: RecType, turn: string, key: Key)
  datatype World = World(wal: seq<Rec>, effects: map<Key, nat>, lsn: nat)

  datatype Op = Begin | EffectAndCommit | Effect | Commit | Observe | CommitTurn

  /** How an action's effect behaves: written in the log's own transaction, a no-op when repeated, or neither. */
  datatype Kind = Kind(transactional: bool, idempotent: bool)

  datatype Fault = ActionUniqueness(times: nat) | GhostObservation | LostEffect | PrefixRecovery

  const FRESH := World([], map[], 0)

  function Fired(w: World, key: Key): nat {
    if key in w.effects then w.effects[key] else 0
  }

  function Append(w: World, kind: RecType, key: Key): World {
    w.(lsn := w.lsn + 1, wal := w.wal + [Rec(w.lsn + 1, kind, "T", key)])
  }

  function Fire(w: World, key: Key): World {
    w.(effects := w.effects[key := Fired(w, key) + 1])
  }

  function CommittedKeys(wal: seq<Rec>): set<Key> {
    set r | r in wal && r.kind == ActionCommitted :: r.key
  }

  function ObservedKeys(wal: seq<Rec>): set<Key> {
    set r | r in wal && r.kind == ObservationCommitted :: r.key
  }

  predicate TurnDone(wal: seq<Rec>) {
    exists r :: r in wal && r.kind == TurnCommitted
  }

  function TurnOps(k: Kind): seq<Op> {
    [Begin] + (if k.transactional then [EffectAndCommit] else [Effect, Commit]) + [Observe, CommitTurn]
  }

  function ApplyOp(w: World, op: Op, key: Key, idempotent: bool): World {
    match op
    case Begin => Append(w, BeginTurn, "")
    case EffectAndCommit => Append(Fire(w, key), ActionCommitted, key)
    case Effect => if idempotent && Fired(w, key) >= 1 then w else Fire(w, key)
    case Commit => Append(w, ActionCommitted, key)
    case Observe => Append(w, ObservationCommitted, key)
    case CommitTurn => Append(w, TurnCommitted, "")
  }

  predicate Skips(wal: seq<Rec>, op: Op, key: Key, committed: bool) {
    || ((op.EffectAndCommit? || op.Effect? || op.Commit?) && committed)
    || (op.Observe? && key in ObservedKeys(wal))
    || (op.CommitTurn? && TurnDone(wal))
  }

  /** One iteration of recovery's loop, with its flag. */
  function Iterate(s: (World, bool), op: Op, key: Key, idempotent: bool): (World, bool) {
    if Skips(s.0.wal, op, key, s.1) then s
    else (ApplyOp(s.0, op, key, idempotent), s.1 || op.EffectAndCommit? || op.Commit?)
  }

  /** Recovery after its first `n` iterations. */
  function Iterations(w: World, key: Key, k: Kind, n: nat): (World, bool)
    requires n <= |TurnOps(k)|
  {
    if n == 0 then (w, key in CommittedKeys(w.wal))
    else Iterate(Iterations(w, key, k, n - 1), TurnOps(k)[n - 1], key, k.idempotent)
  }

  /** Recovery that dies after `cut` iterations, or ends if there are not that many. */
  function Recover(w: World, key: Key, k: Kind, cut: nat): World {
    Iterations(w, key, k, if cut < |TurnOps(k)| then cut else |TurnOps(k)|).0
  }

  function RecoverAll(w: World, key: Key, k: Kind, cuts: seq<nat>): World
    decreases |cuts|
  {
    if cuts == [] then w else RecoverAll(Recover(w, key, k, cuts[0]), key, k, cuts[1..])
  }

  /** Any number of interrupted attempts, then one that is not. */
  function Outcome(key: Key, k: Kind, cuts: seq<nat>): World {
    Recover(RecoverAll(FRESH, key, k, cuts), key, k, |TurnOps(k)|)
  }

  /** The very first run applies the operations without looking at the log. */
  function RunOps(w: World, key: Key, k: Kind, n: nat): World
    requires n <= |TurnOps(k)|
  {
    if n == 0 then w else ApplyOp(RunOps(w, key, k, n - 1), TurnOps(k)[n - 1], key, k.idempotent)
  }

  // ---- the checked invariants ----

  /** Highest log position of a commit of the key, or -1. */
  function LastCommit(wal: seq<Rec>, key: Key): int {
    if wal == [] then -1
    else
      var r := wal[|wal| - 1];
      var rest := LastCommit(wal[..|wal| - 1], key);
      if r.kind == ActionCommitted && r.key == key && r.lsn > rest then r.lsn else rest
  }

  /** Lowest log position of an observation of the key, or -1. */
  function FirstObservation(wal: seq<Rec>, key: Key): int {
    if wal == [] then -1
    else
      var r := wal[|wal| - 1];
      var rest := FirstObservation(wal[..|wal| - 1], key);
      if r.kind == ObservationCommitted && r.key == key && (rest == -1 || r.lsn < rest) then r.lsn else rest
  }

  function CheckInvariants(w: World, key: Key): seq<Fault> {
    var lastCommit, firstObs := LastCommit(w.wal, key), FirstObservation(w.wal, key);
    (if Fired(w, key) > 1 then [ActionUniqueness(Fired(w, key))] else [])
    + (if firstObs != -1 && (lastCommit == -1 || lastCommit > firstObs) then [GhostObservation] else [])
    + (if key in CommittedKeys(w.wal) && key !in ObservedKeys(w.wal) then [LostEffect] else [])
    + (if !TurnDone(w.wal) then [PrefixRecovery] else [])
  }

  // ---- what the log says ----

  ghost predicate Wf(w: World) {
    |w.wal| == w.lsn && forall i :: 0 <= i < |w.wal| ==> w.wal[i].lsn == i + 1
  }

  lemma {:induction false} LogIs(wal: seq<Rec>, key: Key)
    requires forall i :: 0 <= i < |wal| ==> wal[i].lsn == i + 1
    ensures -1 <= LastCommit(wal, key) <= |wal| && LastCommit(wal, key) != 0
    ensures -1 <= FirstObservation(wal, key) <= |wal| && FirstObservation(wal, key) != 0
    ensures key in CommittedKeys(wal) <==> LastCommit(wal, key) != -1
    ensures key in ObservedKeys(wal) <==> FirstObservation(wal, key) != -1
    decreases |wal|
  {
    if wal != [] {
      var init, r := wal[..|wal| - 1], wal[|wal| - 1];
      assert wal == init + [r];
      LogIs(init, key);
      assert forall x :: x in wal <==> x in init || x == r;
      assert key in CommittedKeys(wal) <==> key in CommittedKeys(init) || (r.kind == ActionCommitted && r.key == key);
      assert key in ObservedKeys(wal) <==>
             key in ObservedKeys(init) || (r.kind == ObservationCommitted && r.key == key);
    }
  }

  lemma AppendIs(w: World, kind: RecType, key: Key, about: Key)
    requires Wf(w)
    ensures var r := Append(w, kind, key);
            && Wf(r) && r.lsn == w.lsn + 1 && r.effects == w.effects
            && LastCommit(r.wal, about) ==
               (if kind == ActionCommitted && key == about then r.lsn else LastCommit(w.wal, about))
            && FirstObservation(r.wal, about) ==
               (if kind == ObservationCommitted && key == about && FirstObservation(w.wal, about) == -1 then r.lsn
                else FirstObservation(w.wal, about))
            && (TurnDone(r.wal) <==> TurnDone(w.wal) || kind == TurnCommitted)
  {
    var r := Append(w, kind, key);
    assert r.wal[..|r.wal| - 1] == w.wal;
    LogIs(w.wal, about);
    assert forall x :: x in r.wal <==> x in w.wal || x == r.wal[|w.wal|];
  }

  // ---- the invariant of interrupted recoveries ----

  /** How often the effect has fired: `lost` times for attempts that died between effect and commit, and
      once more when the commit is in the log. A repeatable effect may also have fired unrecorded. */
  predicate FiredIs(fired: nat, committed: bool, k: Kind, lost: nat) {
    if k.idempotent && !k.transactional then fired <= 1 && (committed ==> fired == 1)
    else fired == lost + if committed then 1 else 0
  }

  /** Commit, then observation, then turn commit. */
  ghost predicate Ordered(w: World, key: Key) {
    && Wf(w)
    && (FirstObservation(w.wal, key) != -1 ==> 0 < LastCommit(w.wal, key) < FirstObservation(w.wal, key))
    && (TurnDone(w.wal) ==> FirstObservation(w.wal, key) != -1)
  }

  ghost predicate Inv(w: World, key: Key, k: Kind, lost: nat) {
    Ordered(w, key) && FiredIs(Fired(w, key), LastCommit(w.wal, key) != -1, k, lost)
  }

  /** The attempts that died after the effect and before its commit reached the log: an operation list of
      a non-transactional action cut after its second operation, before any attempt got as far as the third. */
  function Lost(k: Kind, cuts: seq<nat>): nat {
    if k.transactional || k.idempotent || cuts == [] || cuts[0] >= 3 then 0
    else (if cuts[0] == 2 then 1 else 0) + Lost(k, cuts[1..])
  }

  lemma LostOnlyIfPlain(k: Kind, cuts: seq<nat>)
    ensures k.transactional || k.idempotent ==> Lost(k, cuts) == 0
  {
  }

  lemma FreshIsInv(key: Key, k: Kind)
    ensures Inv(FRESH, key, k, 0) && LastCommit(FRESH.wal, key) == -1
  {
  }

  /** Where an attempt stands after `n` iterations, from a world with `lost` and `committed`. */
  ghost predicate At(s: (World, bool), key: Key, k: Kind, lost: nat, n: nat, committed: bool) {
    var pos := if k.transactional && n >= 2 then n + 1 else n;
    && Ordered(s.0, key)
    && (s.1 <==> LastCommit(s.0.wal, key) != -1)
    && (s.1 <==> committed || pos >= 3)
    && (pos >= 4 ==> FirstObservation(s.0.wal, key) != -1)
    && (pos >= 5 ==> TurnDone(s.0.wal))
    && if pos == 2 && !committed then Fired(s.0, key) == if k.idempotent then 1 else lost + 1
       else FiredIs(Fired(s.0, key), s.1, k, lost)
  }

  lemma IterateKeepsAt(s: (World, bool), key: Key, k: Kind, lost: nat, n: nat, committed: bool)
    requires n < |TurnOps(k)| && At(s, key, k, lost, n, committed)
    requires k.transactional ==> lost == 0
    ensures At(Iterate(s, TurnOps(k)[n], key, k.idempotent), key, k, lost, n + 1, committed)
  {
    hide LastCommit, FirstObservation, CommittedKeys, ObservedKeys, TurnDone, Append;
    var w, op := s.0, TurnOps(k)[n];
    LogIs(w.wal, key);
    match op
    case Begin => AppendIs(w, BeginTurn, "", key);
    case EffectAndCommit => AppendIs(Fire(w, key), ActionCommitted, key, key);
    case Effect =>
    case Commit => AppendIs(w, ActionCommitted, key, key);
    case Observe => AppendIs(w, ObservationCommitted, key, key);
    case CommitTurn => AppendIs(w, TurnCommitted, "", key);
  }

  lemma {:induction false} IterationsAt(w: World, key: Key, k: Kind, lost: nat, n: nat)
    requires n <= |TurnOps(k)| && Inv(w, key, k, lost)
    requires k.transactional ==> lost == 0
    ensures At(Iterations(w, key, k, n), key, k, lost, n, LastCommit(w.wal, key) != -1)
  {
    if n == 0 {
      LogIs(w.wal, key);
    } else {
      IterationsAt(w, key, k, lost, n - 1);
      IterateKeepsAt(Iterations(w, key, k, n - 1), key, k, lost, n - 1, LastCommit(w.wal, key) != -1);
    }
  }

  /** One attempt, cut anywhere. */
  lemma RecoverKeepsInv(w: World, key: Key, k: Kind, lost: nat, cut: nat)
    requires Inv(w, key, k, lost)
    requires k.transactional ==> lost == 0
    ensures var r := Recover(w, key, k, cut);
            var was := LastCommit(w.wal, key) != -1;
            && Inv(r, key, k, lost + if was then 0 else Lost(k, [cut]))
            && ((LastCommit(r.wal, key) != -1) <==> was || cut >= (if k.transactional then 2 else 3))
            && (cut >= |TurnOps(k)| ==> TurnDone(r.wal))
  {
    var n := if cut < |TurnOps(k)| then cut else |TurnOps(k)|;
    IterationsAt(w, key, k, lost, n);
    assert Lost(k, [cut][1..]) == 0;
  }

  lemma {:induction false} RecoverAllKeepsInv(w: World, key: Key, k: Kind, lost: nat, cuts: seq<nat>)
    requires Inv(w, key, k, lost)
    requires k.transactional ==> lost == 0
    ensures Inv(RecoverAll(w, key, k, cuts), key, k, lost + if LastCommit(w.wal, key) != -1 then 0 else Lost(k, cuts))
    decreases |cuts|
  {
    if cuts != [] {
      var was := LastCommit(w.wal, key) != -1;
      RecoverKeepsInv(w, key, k, lost, cuts[0]);
      assert Lost(k, [cuts[0]][1..]) == 0;
      var lost' := lost + if was then 0 else Lost(k, [cuts[0]]);
      RecoverAllKeepsInv(Recover(w, key, k, cuts[0]), key, k, lost', cuts[1..]);
    }
  }

  // ---- the theorems ----

  /** EXACT COUNT: after any interrupted attempts and one complete recovery the effect has fired exactly
      once, plus once for every attempt that died between effect and commit of an effect that is neither
      transactional nor repeatable; all the other checked properties hold for every kind. */
  lemma FiredExactly(key: Key, k: Kind, cuts: seq<nat>)
    ensures var w := Outcome(key, k, cuts);
            && Fired(w, key) == 1 + Lost(k, cuts)
            && CheckInvariants(w, key) == if Lost(k, cuts) == 0 then [] else [ActionUniqueness(1 + Lost(k, cuts))]
  {
    hide LastCommit, FirstObservation, CommittedKeys, ObservedKeys, TurnDone, Iterations, RecoverAll;
    LostOnlyIfPlain(k, cuts);
    FreshIsInv(key, k);
    RecoverAllKeepsInv(FRESH, key, k, 0, cuts);
    var w := RecoverAll(FRESH, key, k, cuts);
    IterationsAt(w, key, k, Lost(k, cuts), |TurnOps(k)|);
    LogIs(Outcome(key, k, cuts).wal, key);
  }

  /** The guaranteed classes: transactional and repeatable effects pass every check after every history. */
  lemma GuaranteedClasses(k: Kind)
    ensures (forall key, cuts :: CheckInvariants(Outcome(key, k, cuts), key) == []) <==> k.transactional || k.idempotent
  {
    forall key: Key, cuts: seq<nat>
      ensures (k.transactional || k.idempotent) ==> CheckInvariants(Outcome(key, k, cuts), key) == []
    {
      FiredExactly(key, k, cuts);
    }
    if !k.transactional && !k.idempotent {
      FiredExactly("a1", k, [2]);
      assert Lost(k, [2][1..]) == 0;
      assert CheckInvariants(Outcome("a1", k, [2]), "a1") != [];
    }
  }

  /** Neither observation nor turn commit is in the log before its own iteration. */
  lemma {:induction false} NotYet(key: Key, k: Kind, n: nat)
    requires n <= |TurnOps(k)|
    ensures var w := Iterations(FRESH, key, k, n).0;
            && Wf(w)
            && (n < |TurnOps(k)| - 1 ==> FirstObservation(w.wal, key) == -1)
            && (n < |TurnOps(k)| ==> !TurnDone(w.wal))
  {
    if n > 0 {
      NotYet(key, k, n - 1);
      IterateAppends(Iterations(FRESH, key, k, n - 1), TurnOps(k)[n - 1], key, k.idempotent);
    }
  }

  lemma IterateAppends(s: (World, bool), op: Op, key: Key, idempotent: bool)
    requires Wf(s.0)
    ensures var w := Iterate(s, op, key, idempotent).0;
            && Wf(w)
            && (!op.Observe? ==> FirstObservation(w.wal, key) == FirstObservation(s.0.wal, key))
            && (!op.CommitTurn? ==> TurnDone(w.wal) == TurnDone(s.0.wal))
  {
    hide LastCommit, FirstObservation, CommittedKeys, ObservedKeys, TurnDone, Append;
    var w := s.0;
    AppendIs(w, BeginTurn, "", key);
    AppendIs(Fire(w, key), ActionCommitted, key, key);
    AppendIs(w, ActionCommitted, key, key);
    AppendIs(w, ObservationCommitted, key, key);
    AppendIs(w, TurnCommitted, "", key);
  }

  /** The first run of a turn is a recovery from the empty log. */
  lemma {:induction false} FirstRunIsRecovery(key: Key, k: Kind, n: nat)
    requires n <= |TurnOps(k)|
    ensures RunOps(FRESH, key, k, n) == Iterations(FRESH, key, k, n).0
  {
    hide LastCommit, FirstObservation, CommittedKeys, ObservedKeys, TurnDone, ApplyOp;
    if n > 0 {
      FirstRunIsRecovery(key, k, n - 1);
      FreshIsInv(key, k);
      IterationsAt(FRESH, key, k, 0, n - 1);
      NotYet(key, k, n - 1);
      LogIs(Iterations(FRESH, key, k, n - 1).0.wal, key);
    }
  }

  /** One crash of the first run, recovered and checked. */
  lemma CrashPoint(key: Key, k: Kind, n: nat)
    requires n <= |TurnOps(k)|
    ensures var w := Recover(RunOps(FRESH, key, k, n), key, k, |TurnOps(k)|);
            var lost := !k.transactional && !k.idempotent && n == 2;
            && CheckInvariants(w, key) == (if lost then [ActionUniqueness(2)] else [])
            && Fired(w, key) == if lost then 2 else 1
  {
    hide CheckInvariants, Fired, Iterations, RunOps;
    FirstRunIsRecovery(key, k, n);
    FiredExactly(key, k, [n]);
    assert [n][1..] == [];
    assert RecoverAll(Recover(FRESH, key, k, n), key, k, []) == Recover(FRESH, key, k, n);
  }

  /** IMPOSSIBILITY: as long as nothing is committed, dying just before and just after a plain effect leaves
      the same log, with the effect fired once more in one world than in the other; so no recovery that
      chooses from the log how often to fire can end with exactly one firing in both. */
  lemma TheLogCannotTell(key: Key, k: Kind, cuts: seq<nat>, choose: seq<Rec> -> nat)
    requires !k.transactional && !k.idempotent
    requires forall c :: c in cuts ==> c <= 2
    ensures var w := RecoverAll(FRESH, key, k, cuts);
            var before, after := Recover(w, key, k, 1), Recover(w, key, k, 2);
            && before.wal == after.wal
            && Fired(after, key) == Fired(before, key) + 1
            && !(Fired(before, key) + choose(before.wal) == 1 && Fired(after, key) + choose(after.wal) == 1)
  {
    StillUncommitted(FRESH, key, k, 0, cuts);
    var w := RecoverAll(FRESH, key, k, cuts);
    LogIs(w.wal, key);
    assert Iterations(w, key, k, 0) == (w, false);
    assert Iterations(w, key, k, 1) == Iterate((w, false), Begin, key, false);
    assert Iterations(w, key, k, 2) == Iterate(Iterations(w, key, k, 1), Effect, key, false);
  }

  lemma {:induction false} StillUncommitted(w: World, key: Key, k: Kind, lost: nat, cuts: seq<nat>)
    requires Inv(w, key, k, lost) && LastCommit(w.wal, key) == -1 && !k.transactional
    requires forall c :: c in cuts ==> c <= 2
    ensures Wf(RecoverAll(w, key, k, cuts)) && LastCommit(RecoverAll(w, key, k, cuts).wal, key) == -1
    decreases |cuts|
  {
    if cuts != [] {
      assert cuts[0] in cuts;
      RecoverKeepsInv(w, key, k, lost, cuts[0]);
      assert forall c :: c in cuts[1..] ==> c in cuts;
      StillUncommitted(Recover(w, key, k, cuts[0]), key, k, lost + Lost(k, [cuts[0]]), cuts[1..]);
    }
  }

  /** A transactional effect leaves no such doubt: the log always says whether it fired. */
  lemma TransactionalLogTells(key: Key, k: Kind, cuts: seq<nat>)
    requires k.transactional
    ensures var w := RecoverAll(FRESH, key, k, cuts);
            Fired(w, key) == if key in CommittedKeys(w.wal) then 1 else 0
  {
    RecoverAllKeepsInv(FRESH, key, k, 0, cuts);
    LogIs(RecoverAll(FRESH, key, k, cuts).wal, key);
  }

  // ---- the checker and the object it drives ----

  class DurableWorld {
    var wal: seq<Rec>
    var effects: map<Key, nat>
    var lsn: nat

    function Contents(): World
      reads this
    {
      World(wal, effects, lsn)
    }

    constructor ()
      ensures Contents() == FRESH
    {
      wal, effects, lsn := [], map[], 0;
    }

    method AppendRec(kind: RecType, key: Key)
      modifies this`wal, this`lsn
      ensures Contents() == Append(old(Contents()), kind, key)
    {
      lsn := lsn + 1;
      wal := wal + [Rec(lsn, kind, "T", key)];
    }

    method FireEffect(key: Key, transactional: bool)
      modifies this
      ensures var fired := Fire(old(Contents()), key);
              Contents() == if transactional then Append(fired, ActionCommitted, key) else fired
    {
      effects := effects[key := Fired(Contents(), key) + 1];
      if transactional {
        AppendRec(ActionCommitted, key);
      }
    }

    method Apply(op: Op, key: Key, idempotent: bool)
      modifies this
      ensures Contents() == ApplyOp(old(Contents()), op, key, idempotent)
    {
      match op
      case Begin => AppendRec(BeginTurn, "");
      case EffectAndCommit => FireEffect(key, true);
      case Effect =>
        if !(idempotent && Fired(Contents(), key) >= 1) {
          FireEffect(key, false);
        }
      case Commit => AppendRec(ActionCommitted, key);
      case Observe => AppendRec(ObservationCommitted, key);
      case CommitTurn => AppendRec(TurnCommitted, "");
    }

    method RecoverAndFinish(key: Key, k: Kind, cut: nat)
      modifies this
      ensures Contents() == Recover(old(Contents()), key, k, cut)
    {
      var ops := TurnOps(k);
      var committed := key in CommittedKeys(wal);
      var i := 0;
      while i < |ops| && i < cut
        invariant 0 <= i <= |ops| && i <= cut
        invariant (Contents(), committed) == Iterations(old(Contents()), key, k, i)
      {
        var op := ops[i];
        if !Skips(wal, op, key, committed) {
          Apply(op, key, k.idempotent);
          if op.EffectAndCommit? || op.Commit? {
            committed := true;
          }
        }
        i := i + 1;
      }
    }
  }

  /** Crash after every prefix of the operations, recover, check: the only failing crash point is the one
      between a plain effect and its commit. */
  method ExhaustiveCheck(k: Kind, key: Key) returns (bad: seq<(nat, seq<Fault>, nat)>)
    ensures bad == if k.transactional || k.idempotent then [] else [(2, [ActionUniqueness(2)], 2)]
  {
    hide CheckInvariants, Recover;
    var ops := TurnOps(k);
    bad := [];
    var crashAfter := 0;
    while crashAfter <= |ops|
      invariant 0 <= crashAfter <= |ops| + 1
      invariant bad ==
        if k.transactional || k.idempotent || crashAfter <= 2 then [] else [(2, [ActionUniqueness(2)], 2)]
    {
      var world := new DurableWorld();
      var i := 0;
      while i < crashAfter
        invariant 0 <= i <= crashAfter
        invariant world.Contents() == RunOps(FRESH, key, k, i)
      {
        world.Apply(ops[i], key, k.idempotent);
        i := i + 1;
      }
      world.RecoverAndFinish(key, k, |ops|);
      CrashPoint(key, k, crashAfter);
      var errs := CheckInvariants(world.Contents(), key);
      if errs != [] {
        bad := bad + [(crashAfter, errs, Fired(world.Contents(), key))];
      }
      crashAfter := crashAfter + 1;
    }
  }
}
