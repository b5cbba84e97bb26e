/** An attempt of the minimal core as a list of durable steps, one before each tick of the clock: what is on disk when
    it is killed at any tick, from any disk. */
module CoreScript {
  import opened Identity
  import opened Core

  datatype Act =
    | Log(rec: Rec)
    | Idle                                             // nothing is written before this tick
    | ChargeWithKey(key: Key, orderId: string, amount: int)
    | WriteTemp(key: Key, orderId: string)
    | RenameTemp(key: Key, orderId: string)

  function Do(d: Disk, act: Act): Disk {
    match act
    case Log(rec) => d.(wal := d.wal + [rec])
    case Idle => d
    case ChargeWithKey(key, o, a) => d.(charges := d.charges + [(o, a)], keys := d.keys[key := "charged:" + o])
    case WriteTemp(key, o) => d.(overlay := d.overlay[key := o + "\n"])
    case RenameTemp(key, o) => d.(committed := d.committed[key := o + "\n"], overlay := d.overlay - {key})
  }

  /** The first `n` of a list of steps. */
  function Replay(d: Disk, acts: seq<Act>, n: nat): Disk
    decreases n
  {
    if n == 0 || acts == [] then d else Replay(Do(d, acts[0]), acts[1..], n - 1)
  }

  /** The effect of an entry, unless it is already there. */
  function EffectActs(d: Disk, key: Key): seq<Act> {
    match key.entry
    case Sql(o, a) => if key in d.keys then [] else [Idle, ChargeWithKey(key, o, a)]
    case Fs(o) => if key in d.committed then [] else [WriteTemp(key, o), RenameTemp(key, o)]
    case Other(_) => []
  }

  function EntryActs(d: Disk, turn: string, key: Key): seq<Act> {
    [Log(Rec(ActionPrepared, turn, Some(key)))] + EffectActs(d, key) + [Log(Rec(ObservationCommitted, turn, Some(key)))]
  }

  /** A row that a turn's log holds once. */
  ghost function OnceAct(wal: seq<Rec>, kind: RecType, turn: string): Act {
    if exists r :: r in wal && r.kind == kind && r.turn == turn then Idle else Log(Rec(kind, turn, None))
  }

  ghost function ActsFrom(d: Disk, turn: string, plan: seq<Entry>, i: nat): seq<Act>
    requires i <= |plan|
    decreases |plan| - i
  {
    if i == |plan| then [OnceAct(d.wal, TurnCommitted, turn)]
    else EntryActs(d, turn, ActionKey(turn, i, plan[i])) + ActsFrom(d, turn, plan, i + 1)
  }

  /** The steps of a whole attempt, in order, from the disk it finds. */
  ghost function TurnActs(d: Disk, turn: string, plan: seq<Entry>): seq<Act> {
    [OnceAct(d.wal, BeginTurn, turn)] + ActsFrom(d, turn, plan, 0)
  }

  /** The steps are done in order, a tick after each; the one after the step of the chosen tick kills. */
  ghost predicate Plays(d: Disk, acts: seq<Act>, t: Time, r: Run) {
    var killed := t.n < t.killAt <= t.n + |acts|;
    && (r.Crashed? <==> killed)
    && r.disk == Replay(d, acts, if killed then t.killAt - t.n else |acts|)
    && (r.Alive? ==> r.time == t.(n := t.n + |acts|))
  }

  lemma {:induction false} ReplayConcat(d: Disk, a: seq<Act>, b: seq<Act>, n: nat)
    ensures Replay(d, a + b, n) == if n < |a| then Replay(d, a, n) else Replay(Replay(d, a, |a|), b, n - |a|)
    decreases n
  {
    hide Do;
    if a == [] {
      assert a + b == b;
    } else if n > 0 {
      assert (a + b)[1..] == a[1..] + b;
      ReplayConcat(Do(d, a[0]), a[1..], b, n - 1);
    }
  }

  lemma TickPlays(d: Disk, act: Act, t: Time)
    ensures Plays(d, [act], t, Tick(Do(d, act), t))
  {
    hide Do;
    assert [act][1..] == [];
  }

  lemma Then(d: Disk, a: seq<Act>, b: seq<Act>, t: Time, r: Run, r': Run)
    requires Plays(d, a, t, r)
    requires if r.Alive? then Plays(r.disk, b, r.time, r') else r' == r
    ensures Plays(d, a + b, t, r')
  {
    hide Replay;
    ReplayConcat(d, a, b, |a| + |b|);
    if t.n < t.killAt <= t.n + |a| + |b| {
      ReplayConcat(d, a, b, t.killAt - t.n);
      if t.killAt - t.n == |a| {
        assert r.Crashed?;
        NoneLeft(Replay(d, a, |a|), b);
      }
    }
  }

  lemma NoneLeft(d: Disk, acts: seq<Act>)
    ensures Replay(d, acts, 0) == d
  {
  }

  lemma SqlPlays(d: Disk, key: Key, t: Time)
    requires key.entry.Sql?
    ensures Plays(d, EffectActs(d, key), t, CallTool(d, key, t))
  {
    var Sql(o, a) := key.entry;
    if key !in d.keys {
      TickPlays(d, Idle, t);
      var r := Tick(d, t);
      if r.Alive? {
        TickPlays(d, ChargeWithKey(key, o, a), r.time);
      }
      hide Replay;
      Then(d, [Idle], [ChargeWithKey(key, o, a)], t, r, CallTool(d, key, t));
      assert EffectActs(d, key) == [Idle] + [ChargeWithKey(key, o, a)];
    }
  }

  lemma FsPlays(d: Disk, key: Key, t: Time)
    requires key.entry.Fs?
    ensures Plays(d, EffectActs(d, key), t, CallTool(d, key, t))
  {
    var o := key.entry.orderId;
    if key !in d.committed {
      var d' := Do(d, WriteTemp(key, o));
      TickPlays(d, WriteTemp(key, o), t);
      var r := Tick(d', t);
      if r.Alive? {
        TickPlays(d', RenameTemp(key, o), r.time);
      }
      hide Replay;
      Then(d, [WriteTemp(key, o)], [RenameTemp(key, o)], t, r, CallTool(d, key, t));
      assert EffectActs(d, key) == [WriteTemp(key, o)] + [RenameTemp(key, o)];
    }
  }

  lemma CallPlays(d: Disk, key: Key, t: Time)
    ensures Plays(d, EffectActs(d, key), t, CallTool(d, key, t))
  {
    match key.entry
    case Sql(_, _) => SqlPlays(d, key, t);
    case Fs(_) => FsPlays(d, key, t);
    case Other(_) =>
  }

  lemma EntryPlays(d: Disk, turn: string, key: Key, t: Time)
    ensures Plays(d, EntryActs(d, turn, key), t, RunEntry(d, turn, key, t))
  {
    hide Replay, EffectActs, CallTool, Plays;
    var prepared := Log(Rec(ActionPrepared, turn, Some(key)));
    var observed := Log(Rec(ObservationCommitted, turn, Some(key)));
    var p := Do(d, prepared);
    TickPlays(d, prepared, t);
    var r := Tick(p, t);
    var c := if r.Alive? then CallTool(p, key, r.time) else r;
    if r.Alive? {
      CallPlays(p, key, r.time);
      SameEffectActs(d, p, key);
    }
    Then(d, [prepared], EffectActs(d, key), t, r, c);
    var e := if c.Alive? then Tick(Do(c.disk, observed), c.time) else c;
    if c.Alive? {
      TickPlays(c.disk, observed, c.time);
    }
    Then(d, [prepared] + EffectActs(d, key), [observed], t, c, e);
    assert e == RunEntry(d, turn, key, t);
  }

  lemma SameEffectActs(d: Disk, e: Disk, key: Key)
    requires (key in d.keys <==> key in e.keys) && (key in d.committed <==> key in e.committed)
    ensures EffectActs(d, key) == EffectActs(e, key)
  {
  }

  lemma {:induction false} SameActs(d: Disk, e: Disk, turn: string, plan: seq<Entry>, i: nat)
    requires i <= |plan| && SameEffectsFrom(d, e, i)
    requires OnceAct(d.wal, TurnCommitted, turn) == OnceAct(e.wal, TurnCommitted, turn)
    ensures ActsFrom(d, turn, plan, i) == ActsFrom(e, turn, plan, i)
    decreases |plan| - i
  {
    hide OnceAct, EffectActs;
    if i < |plan| {
      SameEffectActs(d, e, ActionKey(turn, i, plan[i]));
      SameActs(d, e, turn, plan, i + 1);
    }
  }

  /** An entry logs its preparation, and its observation if it lives. */
  lemma EntryLog(d: Disk, turn: string, key: Key, t: Time)
    ensures var r, prepared := RunEntry(d, turn, key, t), d.wal + [Rec(ActionPrepared, turn, Some(key))];
            var observed := prepared + [Rec(ObservationCommitted, turn, Some(key))];
            if r.Alive? then r.disk.wal == observed else r.disk.wal == prepared || r.disk.wal == observed
  {
    if Tick(Append(d, ActionPrepared, turn, Some(key)), t).Alive? {
      var p := Tick(Append(d, ActionPrepared, turn, Some(key)), t);
      CallIs(p.disk, key, p.time);
      hide CallTool;
    }
  }

  lemma OnceKept(wal: seq<Rec>, more: seq<Rec>, kind: RecType, turn: string)
    requires forall r :: r in more ==> r.kind != kind
    ensures OnceAct(wal + more, kind, turn) == OnceAct(wal, kind, turn)
  {
    if r :| r in wal + more && r.kind == kind && r.turn == turn {
      assert r in wal;
    }
    if r :| r in wal && r.kind == kind && r.turn == turn {
      assert r in wal + more;
    }
  }

  lemma OncePlays(d: Disk, kind: RecType, turn: string, t: Time)
    ensures Plays(d, [OnceAct(d.wal, kind, turn)], t, Tick(AppendOnce(d, kind, turn), t))
    ensures AppendOnce(d, kind, turn) == Do(d, OnceAct(d.wal, kind, turn))
  {
    TickPlays(d, OnceAct(d.wal, kind, turn), t);
  }

  lemma {:induction false} FromPlays(d: Disk, turn: string, plan: seq<Entry>, i: nat, t: Time)
    requires i <= |plan|
    ensures Plays(d, ActsFrom(d, turn, plan, i), t, RunFrom(d, turn, plan, i, t))
    decreases |plan| - i
  {
    hide Plays, Do, RunEntry, OnceAct, EntryActs;
    if i == |plan| {
      OncePlays(d, TurnCommitted, turn, t);
    } else {
      var key := ActionKey(turn, i, plan[i]);
      var r := RunEntry(d, turn, key, t);
      EntryPlays(d, turn, key, t);
      if r.Alive? {
        EntryTicks(d, turn, key, t);
        EntryLog(d, turn, key, t);
        var rows := [Rec(ActionPrepared, turn, Some(key)), Rec(ObservationCommitted, turn, Some(key))];
        assert r.disk.wal == d.wal + rows;
        OnceKept(d.wal, rows, TurnCommitted, turn);
        SameActs(d, r.disk, turn, plan, i + 1);
        FromPlays(r.disk, turn, plan, i + 1, r.time);
      }
      Then(d, EntryActs(d, turn, key), ActsFrom(d, turn, plan, i + 1), t, r, RunFrom(d, turn, plan, i, t));
    }
  }

  /** AN ATTEMPT IS ITS SCRIPT, killed at any tick and from any disk: the listed steps are done in order and no others,
      as many as the number of the tick that kills, or all of them if it is not killed. */
  lemma TurnIsScript(d: Disk, turn: string, plan: seq<Entry>, killAt: int)
    ensures var acts, r := TurnActs(d, turn, plan), RunTurn(d, turn, plan, Time(0, killAt));
            && (r.Crashed? <==> 1 <= killAt <= |acts|)
            && r.disk == Replay(d, acts, if 1 <= killAt <= |acts| then killAt else |acts|)
  {
    TurnPlays(d, turn, plan, Time(0, killAt));
    hide RunTurn, Replay, TurnActs;
  }

  lemma TurnPlays(d: Disk, turn: string, plan: seq<Entry>, t: Time)
    ensures Plays(d, TurnActs(d, turn, plan), t, RunTurn(d, turn, plan, t))
  {
    hide RunFrom, Do, OnceAct, Replay, ActsFrom;
    var act := OnceAct(d.wal, BeginTurn, turn);
    OncePlays(d, BeginTurn, turn, t);
    var r := Tick(AppendOnce(d, BeginTurn, turn), t);
    if r.Alive? {
      BegunActs(d, turn, plan);
      FromPlays(r.disk, turn, plan, 0, r.time);
    }
    hide AppendOnce;
    Then(d, [act], ActsFrom(d, turn, plan, 0), t, r, RunTurn(d, turn, plan, t));
  }

  lemma BegunActs(d: Disk, turn: string, plan: seq<Entry>)
    ensures ActsFrom(AppendOnce(d, BeginTurn, turn), turn, plan, 0) == ActsFrom(d, turn, plan, 0)
  {
    hide OnceAct;
    var begun := AppendOnce(d, BeginTurn, turn);
    OnceKept(d.wal, [Rec(BeginTurn, turn, None)], TurnCommitted, turn);
    SameActs(d, begun, turn, plan, 0);
  }
}
