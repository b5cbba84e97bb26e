/** One recovery over an arbitrary log, as the rows that it appends and the firing that it makes; and what the program's
    checks say of an arbitrary log. */
module WalScript {
  import opened WalRecovery

  ghost predicate HasRow(wal: seq<Rec>, kind: RecType, key: Key) {
    exists r :: r in wal && r.kind == kind && r.key == key
  }

  ghost predicate HasKind(wal: seq<Rec>, kind: RecType) {
    exists r :: r in wal && r.kind == kind
  }

  /** The operation that commits the action is the second or the third. */
  function CommitAt(k: Kind): nat {
    if k.transactional then 2 else 3
  }

  /** The rows of a recovery that gets through its first `cut` operations: a new BEGIN_TURN always, the others only if
      they are missing. */
  ghost function RowsOf(wal: seq<Rec>, key: Key, k: Kind, cut: nat): seq<(RecType, Key)> {
    (if cut >= 1 then [(BeginTurn, "")] else [])
    + (if cut >= CommitAt(k) && !HasRow(wal, ActionCommitted, key) then [(ActionCommitted, key)] else [])
    + (if cut >= CommitAt(k) + 1 && !HasRow(wal, ObservationCommitted, key) then [(ObservationCommitted, key)] else [])
    + (if cut >= CommitAt(k) + 2 && !HasKind(wal, TurnCommitted) then [(TurnCommitted, "")] else [])
  }

  /** Rows of turn "T" with the next positions. */
  function Numbered(lsn: nat, rows: seq<(RecType, Key)>): seq<Rec> {
    seq(|rows|, i requires 0 <= i < |rows| => Rec(lsn + i + 1, rows[i].0, "T", rows[i].1))
  }

  /** The effect, second in the list, fires unless it is committed, or repeatable and there. */
  ghost predicate Fires(w: World, key: Key, k: Kind, cut: nat) {
    cut >= 2 && !HasRow(w.wal, ActionCommitted, key) && (k.transactional || !k.idempotent || Fired(w, key) == 0)
  }

  /** The log has grown by these rows. */
  ghost predicate Wrote(w: World, rows: seq<(RecType, Key)>, r: World) {
    r.wal == w.wal + Numbered(w.lsn, rows) && r.lsn == w.lsn + |rows|
  }

  ghost predicate Recovers(w: World, key: Key, k: Kind, cut: nat, r: World) {
    && Wrote(w, RowsOf(w.wal, key, k, cut), r)
    && r.effects == if Fires(w, key, k, cut) then w.effects[key := Fired(w, key) + 1] else w.effects
  }

  lemma Sees(wal: seq<Rec>, key: Key)
    ensures key in CommittedKeys(wal) <==> HasRow(wal, ActionCommitted, key)
    ensures key in ObservedKeys(wal) <==> HasRow(wal, ObservationCommitted, key)
    ensures TurnDone(wal) <==> HasKind(wal, TurnCommitted)
  {
  }

  /** Rows of one kind do not make a row of another. */
  lemma MoreRows(wal: seq<Rec>, more: seq<Rec>, kind: RecType, key: Key)
    requires forall r :: r in more ==> r.kind != kind
    ensures HasRow(wal + more, kind, key) <==> HasRow(wal, kind, key)
    ensures HasKind(wal + more, kind) <==> HasKind(wal, kind)
  {
    if r :| r in wal && r.kind == kind && r.key == key {
      assert r in wal + more;
    }
    if r :| r in wal && r.kind == kind {
      assert r in wal + more;
    }
  }

  lemma AppendWrites(w: World, rows: seq<(RecType, Key)>, s: World, kind: RecType, key: Key)
    requires Wrote(w, rows, s)
    ensures Wrote(w, rows + [(kind, key)], Append(s, kind, key))
  {
    assert Numbered(w.lsn, rows + [(kind, key)]) == Numbered(w.lsn, rows) + [Rec(w.lsn + |rows| + 1, kind, "T", key)];
  }

  /** What operation `n` skips, when those before it are done. */
  lemma SkipsIf(w: World, key: Key, k: Kind, n: nat, s: World, committed: bool)
    requires n < |TurnOps(k)| && Wrote(w, RowsOf(w.wal, key, k, n), s)
    requires committed <==> HasRow(w.wal, ActionCommitted, key) || n >= CommitAt(k)
    ensures var op := TurnOps(k)[n];
            Skips(s.wal, op, key, committed) <==>
              || (1 <= n < CommitAt(k) && HasRow(w.wal, ActionCommitted, key))
              || (n == CommitAt(k) && HasRow(w.wal, ObservationCommitted, key))
              || (n == CommitAt(k) + 1 && HasKind(w.wal, TurnCommitted))
  {
    var rows := RowsOf(w.wal, key, k, n);
    Sees(s.wal, key);
    hide CommittedKeys, ObservedKeys, TurnDone;
    if n == CommitAt(k) {
      MoreRows(w.wal, Numbered(w.lsn, rows), ObservationCommitted, key);
    } else if n == CommitAt(k) + 1 {
      MoreRows(w.wal, Numbered(w.lsn, rows), TurnCommitted, "");
    }
    hide HasRow, HasKind;
  }

  lemma NextRows(wal: seq<Rec>, key: Key, k: Kind, n: nat)
    requires n < |TurnOps(k)|
    ensures var rows, next := RowsOf(wal, key, k, n), RowsOf(wal, key, k, n + 1);
            next ==
              if n == 0 then rows + [(BeginTurn, "")]
              else if n + 1 == CommitAt(k) && !HasRow(wal, ActionCommitted, key) then rows + [(ActionCommitted, key)]
              else if n == CommitAt(k) && !HasRow(wal, ObservationCommitted, key)
              then rows + [(ObservationCommitted, key)]
              else if n == CommitAt(k) + 1 && !HasKind(wal, TurnCommitted) then rows + [(TurnCommitted, "")]
              else rows
  {
    hide HasRow, HasKind;
  }

  /** What is known after `n` iterations. */
  ghost predicate Reached(w: World, key: Key, k: Kind, n: nat, s: (World, bool)) {
    && Wrote(w, RowsOf(w.wal, key, k, n), s.0)
    && s.0.effects == (if Fires(w, key, k, n) then w.effects[key := Fired(w, key) + 1] else w.effects)
    && (s.1 <==> HasRow(w.wal, ActionCommitted, key) || n >= CommitAt(k))
  }

  lemma NextWrites(w: World, key: Key, k: Kind, n: nat, s: (World, bool))
    requires n < |TurnOps(k)| && Reached(w, key, k, n, s)
    ensures Wrote(w, RowsOf(w.wal, key, k, n + 1), Iterate(s, TurnOps(k)[n], key, k.idempotent).0)
  {
    hide HasRow, HasKind, Skips, Fires;
    var op, rows := TurnOps(k)[n], RowsOf(w.wal, key, k, n);
    SkipsIf(w, key, k, n, s.0, s.1);
    NextRows(w.wal, key, k, n);
    hide RowsOf;
    AppendWrites(w, rows, s.0, BeginTurn, "");
    AppendWrites(w, rows, Fire(s.0, key), ActionCommitted, key);
    AppendWrites(w, rows, s.0, ActionCommitted, key);
    AppendWrites(w, rows, s.0, ObservationCommitted, key);
    AppendWrites(w, rows, s.0, TurnCommitted, "");
    hide Append, Numbered;
  }

  lemma NextFires(w: World, key: Key, k: Kind, n: nat, s: (World, bool))
    requires n < |TurnOps(k)| && Reached(w, key, k, n, s)
    ensures var s' := Iterate(s, TurnOps(k)[n], key, k.idempotent);
            && s'.0.effects == (if Fires(w, key, k, n + 1) then w.effects[key := Fired(w, key) + 1] else w.effects)
            && (s'.1 <==> HasRow(w.wal, ActionCommitted, key) || n + 1 >= CommitAt(k))
  {
    SkipsIf(w, key, k, n, s.0, s.1);
    hide HasRow, HasKind, Skips, RowsOf, Wrote;
  }

  lemma {:induction false} IterationsRecover(w: World, key: Key, k: Kind, n: nat)
    requires n <= |TurnOps(k)|
    ensures Reached(w, key, k, n, Iterations(w, key, k, n))
  {
    if n == 0 {
      Sees(w.wal, key);
    } else {
      IterationsRecover(w, key, k, n - 1);
      var s := Iterations(w, key, k, n - 1);
      NextWrites(w, key, k, n - 1, s);
      NextFires(w, key, k, n - 1, s);
      hide Iterate, HasRow, HasKind, RowsOf, Wrote, Fires;
    }
  }

  /** A RECOVERY, EXACTLY, over any log and any effects, cut after any iteration: the rows it appends, of turn "T" and
      numbered on, and whether the effect fires once more. */
  lemma RecoverIs(w: World, key: Key, k: Kind, cut: nat)
    ensures Recovers(w, key, k, cut, Recover(w, key, k, cut))
  {
    IterationsRecover(w, key, k, if cut < |TurnOps(k)| then cut else |TurnOps(k)|);
    hide Iterations, HasRow, HasKind;
  }

  /** The highest position of a commit of the key and the lowest of an observation. */
  lemma {:induction false} ExtremesAre(wal: seq<Rec>, key: Key)
    ensures HasRow(wal, ActionCommitted, key) <==> LastCommit(wal, key) != -1
    ensures HasRow(wal, ObservationCommitted, key) <==> FirstObservation(wal, key) != -1
    ensures LastCommit(wal, key) != -1 ==>
              exists r :: r in wal && r.kind == ActionCommitted && r.key == key && r.lsn == LastCommit(wal, key)
    ensures FirstObservation(wal, key) != -1 ==>
              exists r :: r in wal && r.kind == ObservationCommitted && r.key == key
                          && r.lsn == FirstObservation(wal, key)
    ensures forall r :: r in wal && r.kind == ActionCommitted && r.key == key ==> r.lsn <= LastCommit(wal, key)
    ensures forall r :: r in wal && r.kind == ObservationCommitted && r.key == key ==>
              r.lsn >= FirstObservation(wal, key) != -1
    decreases |wal|
  {
    if wal != [] {
      var init, last := wal[..|wal| - 1], wal[|wal| - 1];
      ExtremesAre(init, key);
      assert wal == init + [last];
      assert forall r :: r in wal <==> r in init || r == last;
    }
  }

  /** THE CHECKS, on any log and any effects: each is reported exactly when what it is about is broken. */
  lemma FaultsAre(w: World, key: Key)
    ensures var faults := CheckInvariants(w, key);
            && (forall n: nat :: ActionUniqueness(n) in faults <==> n == Fired(w, key) > 1)
            && (GhostObservation in faults <==>
                  && HasRow(w.wal, ObservationCommitted, key)
                  && (HasRow(w.wal, ActionCommitted, key) ==>
                        exists o, c :: o in w.wal && c in w.wal && o.kind == ObservationCommitted && o.key == key
                                       && c.kind == ActionCommitted && c.key == key && o.lsn < c.lsn))
            && (LostEffect in faults <==>
                  HasRow(w.wal, ActionCommitted, key) && !HasRow(w.wal, ObservationCommitted, key))
            && (PrefixRecovery in faults <==> !HasKind(w.wal, TurnCommitted))
  {
    ExtremesAre(w.wal, key);
    Sees(w.wal, key);
    hide LastCommit, FirstObservation, CommittedKeys, ObservedKeys, TurnDone;
  }
}
