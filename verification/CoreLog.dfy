/** What the log of the minimal core says after any number of killed attempts. */
module CoreLog {
  import opened Identity
  import opened Core

  function KeyAt(turn: string, plan: seq<Entry>, i: nat): Key
    requires i < |plan|
  {
    ActionKey(turn, i, plan[i])
  }

  function Prepared(turn: string, plan: seq<Entry>, i: nat): Rec
    requires i < |plan|
  {
    Rec(ActionPrepared, turn, Some(KeyAt(turn, plan, i)))
  }

  function Observed(turn: string, plan: seq<Entry>, i: nat): Rec
    requires i < |plan|
  {
    Rec(ObservationCommitted, turn, Some(KeyAt(turn, plan, i)))
  }

  /** The first `n` entries are all observed. */
  ghost predicate ObservedBefore(wal: seq<Rec>, turn: string, plan: seq<Entry>, n: nat)
    requires n <= |plan|
  {
    forall j :: 0 <= j < n ==> Observed(turn, plan, j) in wal
  }

  /** An observation of entry `i` after `before`: the entry is in effect, it was prepared, and its predecessors
      are observed. */
  ghost predicate MayObserve(d: Disk, before: seq<Rec>, turn: string, plan: seq<Entry>, i: nat)
    requires i < |plan|
  {
    Effected(d, KeyAt(turn, plan, i)) && Prepared(turn, plan, i) in before && ObservedBefore(before, turn, plan, i)
  }

  /** What a row may be, given the rows before it. */
  ghost predicate RowOk(d: Disk, before: seq<Rec>, turn: string, plan: seq<Entry>, row: Rec) {
    match row.kind
    case BeginTurn => row == Rec(BeginTurn, turn, None) && before == []
    case ActionPrepared => before != [] && exists i :: 0 <= i < |plan| && row == Prepared(turn, plan, i)
    case ObservationCommitted =>
      && before != []
      && exists i :: 0 <= i < |plan| && row == Observed(turn, plan, i) && MayObserve(d, before, turn, plan, i)
    case TurnCommitted =>
      && before != [] && row == Rec(TurnCommitted, turn, None) && row !in before
      && ObservedBefore(before, turn, plan, |plan|)
  }

  ghost predicate LogOk(d: Disk, turn: string, plan: seq<Entry>) {
    forall p :: 0 <= p < |d.wal| ==> RowOk(d, d.wal[..p], turn, plan, d.wal[p])
  }

  ghost predicate MoreEffected(d: Disk, e: Disk) {
    forall key :: Effected(d, key) ==> Effected(e, key)
  }

  lemma EffectsKeepLog(d: Disk, e: Disk, turn: string, plan: seq<Entry>)
    requires LogOk(d, turn, plan) && e.wal == d.wal && MoreEffected(d, e)
    ensures LogOk(e, turn, plan)
  {
    hide Effected;
    forall p | 0 <= p < |e.wal| ensures RowOk(e, e.wal[..p], turn, plan, e.wal[p]) {
      assert RowOk(d, d.wal[..p], turn, plan, d.wal[p]);
      if i :| 0 <= i < |plan| && e.wal[p] == Observed(turn, plan, i) && MayObserve(d, d.wal[..p], turn, plan, i) {
        assert MayObserve(e, e.wal[..p], turn, plan, i);
      }
    }
  }

  lemma AppendKeepsLog(d: Disk, turn: string, plan: seq<Entry>, row: Rec)
    requires LogOk(d, turn, plan) && RowOk(d, d.wal, turn, plan, row)
    ensures LogOk(d.(wal := d.wal + [row]), turn, plan)
  {
    var e := d.(wal := d.wal + [row]);
    assert MoreEffected(d, e);
    hide Effected, MoreEffected;
    forall p | 0 <= p < |e.wal| ensures RowOk(e, e.wal[..p], turn, plan, e.wal[p]) {
      if p < |d.wal| {
        assert e.wal[..p] == d.wal[..p];
        RowKept(d, e, d.wal[..p], turn, plan, d.wal[p]);
      } else {
        assert e.wal[..p] == d.wal;
        RowKept(d, e, d.wal, turn, plan, row);
      }
    }
  }

  lemma RowKept(d: Disk, e: Disk, before: seq<Rec>, turn: string, plan: seq<Entry>, row: Rec)
    requires RowOk(d, before, turn, plan, row) && MoreEffected(d, e)
    ensures RowOk(e, before, turn, plan, row)
  {
    hide Effected;
    if i :| 0 <= i < |plan| && row == Observed(turn, plan, i) && MayObserve(d, before, turn, plan, i) {
      assert MayObserve(e, before, turn, plan, i);
    }
  }

  /** The attempt has begun its turn and observed the first `i` entries. */
  ghost predicate Running(d: Disk, turn: string, plan: seq<Entry>, i: nat) {
    LogOk(d, turn, plan) && d.wal != [] && i <= |plan| && ObservedBefore(d.wal, turn, plan, i)
  }

  /** A call puts its effect there, keeps the others, and writes no row. */
  lemma CallEffects(d: Disk, key: Key, t: Time)
    ensures var r := CallTool(d, key, t);
            r.disk.wal == d.wal && MoreEffected(d, r.disk) && (r.Alive? ==> Effected(r.disk, key))
  {
    CallIs(d, key, t);
    hide CallTool;
  }

  lemma EntryRuns(d: Disk, turn: string, plan: seq<Entry>, i: nat, t: Time)
    requires Running(d, turn, plan, i) && i < |plan|
    ensures var r := RunEntry(d, turn, KeyAt(turn, plan, i), t);
            LogOk(r.disk, turn, plan) && (r.Alive? ==> Running(r.disk, turn, plan, i + 1))
  {
    hide Effected, CallTool, MayObserve;
    var key, row := KeyAt(turn, plan, i), Prepared(turn, plan, i);
    var p := d.(wal := d.wal + [row]);
    AppendKeepsLog(d, turn, plan, row);
    var ticked := Tick(p, t);
    if ticked.Alive? {
      var c := CallTool(p, key, ticked.time);
      CallEffects(p, key, ticked.time);
      EffectsKeepLog(p, c.disk, turn, plan);
      if c.Alive? {
        ObserveRuns(c.disk, turn, plan, i);
      }
    }
  }

  lemma ObserveRuns(d: Disk, turn: string, plan: seq<Entry>, i: nat)
    requires LogOk(d, turn, plan) && d.wal != [] && i < |plan| && ObservedBefore(d.wal, turn, plan, i)
    requires Effected(d, KeyAt(turn, plan, i)) && Prepared(turn, plan, i) in d.wal
    ensures Running(d.(wal := d.wal + [Observed(turn, plan, i)]), turn, plan, i + 1)
  {
    hide Effected;
    assert MayObserve(d, d.wal, turn, plan, i);
    AppendKeepsLog(d, turn, plan, Observed(turn, plan, i));
    hide LogOk;
  }

  lemma {:induction false} FromRuns(d: Disk, turn: string, plan: seq<Entry>, i: nat, t: Time)
    requires Running(d, turn, plan, i)
    ensures var r := RunFrom(d, turn, plan, i, t);
            LogOk(r.disk, turn, plan) && (r.Alive? ==> ObservedBefore(r.disk.wal, turn, plan, |plan|))
    decreases |plan| - i
  {
    hide RunEntry, RowOk, Effected;
    if i == |plan| {
      EndRuns(d, turn, plan);
    } else {
      hide Running;
      EntryRuns(d, turn, plan, i, t);
      var r := RunEntry(d, turn, KeyAt(turn, plan, i), t);
      if r.Alive? {
        FromRuns(r.disk, turn, plan, i + 1, r.time);
      }
    }
  }

  lemma EndRuns(d: Disk, turn: string, plan: seq<Entry>)
    requires Running(d, turn, plan, |plan|)
    ensures Running(AppendOnce(d, TurnCommitted, turn), turn, plan, |plan|)
  {
    hide Effected, LogOk;
    if !Has(d.wal, TurnCommitted, turn) {
      AppendKeepsLog(d, turn, plan, Rec(TurnCommitted, turn, None));
    }
  }

  lemma BeginRuns(d: Disk, turn: string, plan: seq<Entry>)
    requires LogOk(d, turn, plan)
    ensures Running(AppendOnce(d, BeginTurn, turn), turn, plan, 0)
  {
    if d.wal != [] {
      assert RowOk(d, d.wal[..0], turn, plan, d.wal[0]);
      assert d.wal[0] in d.wal;
    } else {
      AppendKeepsLog(d, turn, plan, Rec(BeginTurn, turn, None));
    }
  }

  lemma TurnKeepsLog(d: Disk, turn: string, plan: seq<Entry>, t: Time)
    requires LogOk(d, turn, plan)
    ensures var r := RunTurn(d, turn, plan, t);
            LogOk(r.disk, turn, plan) && (r.Alive? ==> ObservedBefore(r.disk.wal, turn, plan, |plan|))
  {
    hide RunFrom, RowOk;
    BeginRuns(d, turn, plan);
    var begun := AppendOnce(d, BeginTurn, turn);
    if Tick(begun, t).Alive? {
      FromRuns(begun, turn, plan, 0, Tick(begun, t).time);
    }
  }

  lemma {:induction false} AttemptsKeepLog(d: Disk, turn: string, plan: seq<Entry>, kills: seq<int>)
    requires LogOk(d, turn, plan)
    ensures LogOk(Attempts(d, turn, plan, kills), turn, plan)
    decreases |kills|
  {
    hide LogOk, RunTurn;
    if kills != [] {
      TurnKeepsLog(d, turn, plan, Time(0, kills[0]));
      AttemptsKeepLog(RunTurn(d, turn, plan, Time(0, kills[0])).disk, turn, plan, kills[1..]);
    }
  }

  /** THE LOG, after attempts killed at any ticks: BEGIN_TURN is first and comes once; an observed entry is in effect,
      was prepared before, and all entries before it in the plan were observed before; TURN_COMMITTED comes once and
      after an observation of every entry; and there are no other rows. */
  lemma LogIsConsistent(turn: string, plan: seq<Entry>, kills: seq<int>)
    ensures var d := Attempts(BLANK, turn, plan, kills);
            && LogOk(d, turn, plan)
            && (forall p :: 0 <= p < |d.wal| ==> (d.wal[p] == Rec(BeginTurn, turn, None) <==> p == 0))
            && (forall p, q ::
                  0 <= p < q < |d.wal| && d.wal[p].kind == TurnCommitted ==> d.wal[q].kind != TurnCommitted)
  {
    AttemptsKeepLog(BLANK, turn, plan, kills);
    var d := Attempts(BLANK, turn, plan, kills);
    forall p | 0 <= p < |d.wal| ensures d.wal[p] == Rec(BeginTurn, turn, None) <==> p == 0 {
      assert RowOk(d, d.wal[..p], turn, plan, d.wal[p]);
    }
    forall p, q | 0 <= p < q < |d.wal| && d.wal[p].kind == TurnCommitted ensures d.wal[q].kind != TurnCommitted {
      assert RowOk(d, d.wal[..p], turn, plan, d.wal[p]) && RowOk(d, d.wal[..q], turn, plan, d.wal[q]);
      assert d.wal[p] in d.wal[..q];
    }
  }

  /** An attempt that is not killed, after any that were, leaves an observation of every entry. */
  lemma CleanAttemptObservesAll(turn: string, plan: seq<Entry>, kills: seq<int>, t: Time)
    requires RunTurn(Attempts(BLANK, turn, plan, kills), turn, plan, t).Alive?
    ensures ObservedBefore(RunTurn(Attempts(BLANK, turn, plan, kills), turn, plan, t).disk.wal, turn, plan, |plan|)
  {
    AttemptsKeepLog(BLANK, turn, plan, kills);
    TurnKeepsLog(Attempts(BLANK, turn, plan, kills), turn, plan, t);
  }
}
