/** The minimal coordinator core: log, tool gateway and a clock that kills the process at a chosen tick. */
module Core {
  import opened Identity

  /** A committed tool call; the coordinator ignores tools other than its two. */
  datatype Entry = Sql(orderId: string, amount: int) | Fs(orderId: string) | Other(tool: string)

  datatype Key = ActionKey(turn: string, ordinal: nat, entry: Entry)

  datatype RecType = BeginTurn | ActionPrepared | ObservationCommitted | TurnCommitted
  datatype Rec = Rec(kind: RecType, turn: string, key: Option<Key>)

  datatype Disk = Disk(wal: seq<Rec>, charges: seq<(string, int)>, keys: map<Key, string>,
                       committed: map<Key, string>, overlay: map<Key, string>)

  /** Ticks so far, and the tick that kills; zero or negative never does. */
  datatype Time = Time(n: nat, killAt: int)

  /** A dead process leaves its disk; a live one also keeps its clock. */
  datatype Run = Crashed(disk: Disk) | Alive(disk: Disk, time: Time)

  const BLANK := Disk([], [], map[], map[], map[])

  function Tick(d: Disk, t: Time): Run {
    if t.killAt != 0 && t.n + 1 == t.killAt then Crashed(d) else Alive(d, t.(n := t.n + 1))
  }

  predicate Has(wal: seq<Rec>, kind: RecType, turn: string) {
    exists r :: r in wal && r.kind == kind && r.turn == turn
  }

  function Append(d: Disk, kind: RecType, turn: string, key: Option<Key>): Disk {
    d.(wal := d.wal + [Rec(kind, turn, key)])
  }

  function AppendOnce(d: Disk, kind: RecType, turn: string): Disk {
    if Has(d.wal, kind, turn) then d else Append(d, kind, turn, None)
  }

  /** The effect and its key record commit together. */
  function SqlCharge(d: Disk, key: Key, orderId: string, amount: int, t: Time): Run {
    if key in d.keys then Alive(d, t)
    else
      match Tick(d, t)
      case Crashed(d) => Crashed(d)
      case Alive(_, t) =>
        Tick(d.(charges := d.charges + [(orderId, amount)], keys := d.keys[key := "charged:" + orderId]), t)
  }

  /** The receipt is written aside, then renamed to its final name. */
  function FsReceipt(d: Disk, key: Key, orderId: string, t: Time): Run {
    if key in d.committed then Alive(d, t)
    else
      var d := d.(overlay := d.overlay[key := orderId + "\n"]);
      match Tick(d, t)
      case Crashed(d) => Crashed(d)
      case Alive(_, t) => Tick(d.(committed := d.committed[key := d.overlay[key]], overlay := d.overlay - {key}), t)
  }

  function CallTool(d: Disk, key: Key, t: Time): Run {
    match key.entry
    case Sql(o, a) => SqlCharge(d, key, o, a, t)
    case Fs(o) => FsReceipt(d, key, o, t)
    case Other(_) => Alive(d, t)
  }

  function RunEntry(d: Disk, turn: string, key: Key, t: Time): Run {
    match Tick(Append(d, ActionPrepared, turn, Some(key)), t)
    case Crashed(d) => Crashed(d)
    case Alive(d, t) =>
      match CallTool(d, key, t)
      case Crashed(d) => Crashed(d)
      case Alive(d, t) => Tick(Append(d, ObservationCommitted, turn, Some(key)), t)
  }

  function RunFrom(d: Disk, turn: string, plan: seq<Entry>, i: nat, t: Time): Run
    requires i <= |plan|
    decreases |plan| - i
  {
    if i == |plan| then Tick(AppendOnce(d, TurnCommitted, turn), t)
    else
      match RunEntry(d, turn, ActionKey(turn, i, plan[i]), t)
      case Crashed(d) => Crashed(d)
      case Alive(d, t) => RunFrom(d, turn, plan, i + 1, t)
  }

  function RunTurn(d: Disk, turn: string, plan: seq<Entry>, t: Time): Run {
    match Tick(AppendOnce(d, BeginTurn, turn), t)
    case Crashed(d) => Crashed(d)
    case Alive(d, t) => RunFrom(d, turn, plan, 0, t)
  }

  function Attempts(d: Disk, turn: string, plan: seq<Entry>, kills: seq<int>): Disk
    decreases |kills|
  {
    if kills == [] then d else Attempts(RunTurn(d, turn, plan, Time(0, kills[0])).disk, turn, plan, kills[1..])
  }

  // ---- when an attempt crashes ----

  predicate Effected(d: Disk, key: Key) {
    match key.entry
    case Sql(_, _) => key in d.keys
    case Fs(_) => key in d.committed
    case Other(_) => true
  }

  function Uneffected(d: Disk, turn: string, plan: seq<Entry>, i: nat): nat
    requires i <= |plan|
    decreases |plan| - i
  {
    if i == |plan| then 0
    else (if Effected(d, ActionKey(turn, i, plan[i])) then 0 else 1) + Uneffected(d, turn, plan, i + 1)
  }

  ghost predicate SameEffectsFrom(d: Disk, e: Disk, i: nat) {
    forall key: Key :: key.ordinal >= i ==>
      (key in d.keys <==> key in e.keys) && (key in d.committed <==> key in e.committed)
  }

  lemma {:induction false} UneffectedFrame(d: Disk, e: Disk, turn: string, plan: seq<Entry>, i: nat)
    requires i <= |plan| && SameEffectsFrom(d, e, i)
    ensures Uneffected(d, turn, plan, i) == Uneffected(e, turn, plan, i)
    decreases |plan| - i
  {
    if i < |plan| {
      UneffectedFrame(d, e, turn, plan, i + 1);
    }
  }

  /** A step of two ticks, or of four if it still has its effect to do. */
  lemma EntryTicks(d: Disk, turn: string, key: Key, t: Time)
    ensures var r := RunEntry(d, turn, key, t);
            var ticks := if Effected(d, key) then 2 else 4;
            && (r.Crashed? <==> t.n < t.killAt <= t.n + ticks)
            && (r.Alive? ==> r.time == t.(n := t.n + ticks) && SameEffectsFrom(d, r.disk, key.ordinal + 1))
  {
  }

  lemma {:induction false} FromTicks(d: Disk, turn: string, plan: seq<Entry>, i: nat, t: Time)
    requires i <= |plan|
    ensures RunFrom(d, turn, plan, i, t).Crashed? <==>
            t.n < t.killAt <= t.n + 1 + 2 * (|plan| - i) + 2 * Uneffected(d, turn, plan, i)
    decreases |plan| - i
  {
    if i < |plan| {
      hide RunEntry;
      var key := ActionKey(turn, i, plan[i]);
      EntryTicks(d, turn, key, t);
      var r := RunEntry(d, turn, key, t);
      if r.Alive? {
        UneffectedFrame(d, r.disk, turn, plan, i + 1);
        FromTicks(r.disk, turn, plan, i + 1, r.time);
      }
    }
  }

  /** CRASH CLOCK: from any disk, an attempt is killed if and only if its tick lies within the durable
      boundaries it has: two, two per plan entry, and two more per entry not yet in effect. */
  lemma CrashesIff(d: Disk, turn: string, plan: seq<Entry>, killAt: int)
    ensures RunTurn(d, turn, plan, Time(0, killAt)).Crashed? <==>
            1 <= killAt <= 2 + 2 * |plan| + 2 * Uneffected(d, turn, plan, 0)
  {
    var begun := AppendOnce(d, BeginTurn, turn);
    UneffectedFrame(d, begun, turn, plan, 0);
    FromTicks(begun, turn, plan, 0, Time(1, killAt));
  }

  // ---- what is on disk ----

  /** The rows the sql entries of a plan ask for, in order. */
  function Charges(plan: seq<Entry>): seq<(string, int)> {
    if plan == [] then []
    else
      var e := plan[|plan| - 1];
      Charges(plan[..|plan| - 1]) + if e.Sql? then [(e.orderId, e.amount)] else []
  }

  function PlanKeys(turn: string, plan: seq<Entry>): set<Key> {
    set i | 0 <= i < |plan| :: ActionKey(turn, i, plan[i])
  }

  /** One key record per sql entry. */
  function KeyRows(turn: string, plan: seq<Entry>): map<Key, string> {
    map key | key in PlanKeys(turn, plan) && key.entry.Sql? :: "charged:" + key.entry.orderId
  }

  /** One receipt per fs entry, holding its order. */
  function Receipts(turn: string, plan: seq<Entry>): map<Key, string> {
    map key | key in PlanKeys(turn, plan) && key.entry.Fs? :: key.entry.orderId + "\n"
  }

  /** Exactly the first `m` entries are in effect, and a turn is only committed when all are. */
  ghost predicate Inv(d: Disk, turn: string, plan: seq<Entry>, m: nat) {
    && m <= |plan|
    && d.charges == Charges(plan[..m])
    && d.keys == KeyRows(turn, plan[..m])
    && d.committed == Receipts(turn, plan[..m])
    && (Has(d.wal, TurnCommitted, turn) ==> m == |plan|)
  }

  lemma ChargesGrow(plan: seq<Entry>, m: nat)
    requires m < |plan|
    ensures Charges(plan[..m + 1]) ==
            Charges(plan[..m]) + (if plan[m].Sql? then [(plan[m].orderId, plan[m].amount)] else [])
  {
    assert plan[..m + 1][..m] == plan[..m];
  }

  lemma PlanKeysGrow(turn: string, plan: seq<Entry>, m: nat)
    requires m < |plan|
    ensures PlanKeys(turn, plan[..m + 1]) == PlanKeys(turn, plan[..m]) + {ActionKey(turn, m, plan[m])}
  {
    var p, q := plan[..m], plan[..m + 1];
    assert forall i :: 0 <= i < m ==> p[i] == q[i];
    forall key | key in PlanKeys(turn, p) + {ActionKey(turn, m, plan[m])} ensures key in PlanKeys(turn, q) {
      assert q[key.ordinal] == key.entry;
    }
  }

  lemma RowsGrow(turn: string, plan: seq<Entry>, m: nat)
    requires m < |plan|
    ensures KeyRows(turn, plan[..m + 1]) == KeyRows(turn, plan[..m]) +
            if plan[m].Sql? then map[ActionKey(turn, m, plan[m]) := "charged:" + plan[m].orderId] else map[]
    ensures Receipts(turn, plan[..m + 1]) == Receipts(turn, plan[..m]) +
            if plan[m].Fs? then map[ActionKey(turn, m, plan[m]) := plan[m].orderId + "\n"] else map[]
  {
    PlanKeysGrow(turn, plan, m);
    hide PlanKeys;
  }

  lemma EffectedIffBefore(d: Disk, turn: string, plan: seq<Entry>, m: nat, i: nat)
    requires Inv(d, turn, plan, m) && i < |plan|
    ensures Effected(d, ActionKey(turn, i, plan[i])) <==> i < m || plan[i].Other?
  {
    var key := ActionKey(turn, i, plan[i]);
    if i < m {
      assert plan[..m][i] == plan[i];
      assert key in PlanKeys(turn, plan[..m]);
    }
  }

  lemma AppendKeepsInv(d: Disk, turn: string, plan: seq<Entry>, m: nat, kind: RecType, key: Option<Key>)
    requires Inv(d, turn, plan, m) && (kind == TurnCommitted ==> m == |plan|)
    ensures Inv(Append(d, kind, turn, key), turn, plan, m)
  {
    var e := Append(d, kind, turn, key);
    assert forall r :: r in e.wal <==> r in d.wal || r == Rec(kind, turn, key);
  }

  lemma EntryKeepsInv(d: Disk, turn: string, plan: seq<Entry>, m: nat, i: nat, t: Time) returns (m': nat)
    requires Inv(d, turn, plan, m) && i < |plan| && i <= m
    ensures var r := RunEntry(d, turn, ActionKey(turn, i, plan[i]), t);
            Inv(r.disk, turn, plan, m') && m <= m' && (r.Alive? ==> i < m')
  {
    hide Charges, KeyRows, Receipts, Append, Has;
    var key := ActionKey(turn, i, plan[i]);
    var prepared := Append(d, ActionPrepared, turn, Some(key));
    AppendKeepsInv(d, turn, plan, m, ActionPrepared, Some(key));
    m' := m;
    if Tick(prepared, t).Alive? {
      m' := CallKeepsInv(prepared, turn, plan, m, i, Tick(prepared, t).time);
      var called := CallTool(prepared, key, Tick(prepared, t).time);
      if called.Alive? {
        AppendKeepsInv(called.disk, turn, plan, m', ObservationCommitted, Some(key));
      }
    }
  }

  /** What a call does to rows and files: nothing, or its own effect and no other. */
  ghost predicate DoesItsOwn(d: Disk, key: Key, r: Run) {
    && r.disk.wal == d.wal
    && (SameRows(d, r.disk) || (!Effected(d, key) && HasEffect(d, r.disk, key)))
    && (SameRows(d, r.disk) && r.Alive? ==> Effected(d, key))
    && (Effected(d, key) ==> r.Alive?)
  }

  lemma ChargeIs(d: Disk, key: Key, t: Time)
    requires key.entry.Sql?
    ensures DoesItsOwn(d, key, SqlCharge(d, key, key.entry.orderId, key.entry.amount, t))
  {
  }

  lemma ReceiptIs(d: Disk, key: Key, t: Time)
    requires key.entry.Fs?
    ensures DoesItsOwn(d, key, FsReceipt(d, key, key.entry.orderId, t))
  {
  }

  lemma CallIs(d: Disk, key: Key, t: Time)
    ensures DoesItsOwn(d, key, CallTool(d, key, t))
  {
    match key.entry
    case Sql(_, _) =>
      ChargeIs(d, key, t);
      hide SqlCharge, DoesItsOwn;
    case Fs(_) =>
      ReceiptIs(d, key, t);
      hide FsReceipt, DoesItsOwn;
    case Other(_) =>
  }

  ghost predicate SameRows(d: Disk, d': Disk) {
    d'.charges == d.charges && d'.keys == d.keys && d'.committed == d.committed
  }

  ghost predicate HasEffect(d: Disk, d': Disk, key: Key) {
    && d'.charges == d.charges + (if key.entry.Sql? then [(key.entry.orderId, key.entry.amount)] else [])
    && d'.keys == d.keys + (if key.entry.Sql? then map[key := "charged:" + key.entry.orderId] else map[])
    && d'.committed == d.committed + (if key.entry.Fs? then map[key := key.entry.orderId + "\n"] else map[])
  }

  /** The next effect, and no other, extends the prefix by one entry. */
  lemma EffectKeepsInv(d: Disk, d': Disk, turn: string, plan: seq<Entry>, m: nat)
    requires Inv(d, turn, plan, m) && m < |plan| && d'.wal == d.wal
    requires HasEffect(d, d', ActionKey(turn, m, plan[m]))
    ensures Inv(d', turn, plan, m + 1)
  {
    hide Charges, KeyRows, Receipts, Has;
    ChargesGrow(plan, m);
    RowsGrow(turn, plan, m);
  }

  lemma SameRowsKeepInv(d: Disk, d': Disk, turn: string, plan: seq<Entry>, m: nat)
    requires Inv(d, turn, plan, m) && SameRows(d, d') && d'.wal == d.wal
    ensures Inv(d', turn, plan, m)
  {
  }

  lemma OtherKeepsInv(d: Disk, turn: string, plan: seq<Entry>, m: nat)
    requires Inv(d, turn, plan, m) && m < |plan| && plan[m].Other?
    ensures Inv(d, turn, plan, m + 1)
  {
    assert HasEffect(d, d, ActionKey(turn, m, plan[m]));
    EffectKeepsInv(d, d, turn, plan, m);
  }

  lemma CallKeepsInv(d: Disk, turn: string, plan: seq<Entry>, m: nat, i: nat, t: Time) returns (m': nat)
    requires Inv(d, turn, plan, m) && i < |plan| && i <= m
    ensures var r := CallTool(d, ActionKey(turn, i, plan[i]), t);
            Inv(r.disk, turn, plan, m') && m <= m' && (r.Alive? ==> i < m')
  {
    var key := ActionKey(turn, i, plan[i]);
    var r := CallTool(d, key, t);
    EffectedIffBefore(d, turn, plan, m, i);
    CallIs(d, key, t);
    hide CallTool, Charges, KeyRows, Receipts, Has;
    m' := m;
    if !Effected(d, key) && HasEffect(d, r.disk, key) {
      EffectKeepsInv(d, r.disk, turn, plan, m);
      m' := m + 1;
    } else if i == m && plan[i].Other? {
      OtherKeepsInv(d, turn, plan, m);
      m' := m + 1;
      SameRowsKeepInv(d, r.disk, turn, plan, m');
    } else {
      SameRowsKeepInv(d, r.disk, turn, plan, m);
    }
  }

  lemma {:induction false} FromKeepsInv(d: Disk, turn: string, plan: seq<Entry>, m: nat, i: nat, t: Time)
    returns (m': nat)
    requires Inv(d, turn, plan, m) && i <= m
    ensures var r := RunFrom(d, turn, plan, i, t);
            Inv(r.disk, turn, plan, m') && (r.Alive? ==> m' == |plan| && Has(r.disk.wal, TurnCommitted, turn))
    decreases |plan| - i
  {
    if i == |plan| {
      m' := m;
      AppendKeepsInv(d, turn, plan, m, TurnCommitted, None);
      assert Rec(TurnCommitted, turn, None) in Append(d, TurnCommitted, turn, None).wal;
    } else {
      hide RunEntry, Inv, Has;
      m' := EntryKeepsInv(d, turn, plan, m, i, t);
      var r := RunEntry(d, turn, ActionKey(turn, i, plan[i]), t);
      if r.Alive? {
        m' := FromKeepsInv(r.disk, turn, plan, m', i + 1, r.time);
      }
    }
  }

  lemma TurnKeepsInv(d: Disk, turn: string, plan: seq<Entry>, m: nat, t: Time) returns (m': nat)
    requires Inv(d, turn, plan, m)
    ensures var r := RunTurn(d, turn, plan, t);
            Inv(r.disk, turn, plan, m') && (r.Alive? ==> m' == |plan| && Has(r.disk.wal, TurnCommitted, turn))
  {
    AppendKeepsInv(d, turn, plan, m, BeginTurn, None);
    var begun := AppendOnce(d, BeginTurn, turn);
    m' := m;
    if Tick(begun, t).Alive? {
      m' := FromKeepsInv(begun, turn, plan, m, 0, Tick(begun, t).time);
    }
  }

  lemma {:induction false} AttemptsKeepInv(d: Disk, turn: string, plan: seq<Entry>, m: nat, kills: seq<int>)
    returns (m': nat)
    requires Inv(d, turn, plan, m)
    ensures Inv(Attempts(d, turn, plan, kills), turn, plan, m')
    decreases |kills|
  {
    m' := m;
    if kills != [] {
      m' := TurnKeepsInv(d, turn, plan, m, Time(0, kills[0]));
      m' := AttemptsKeepInv(RunTurn(d, turn, plan, Time(0, kills[0])).disk, turn, plan, m', kills[1..]);
    }
  }

  /** EXACTLY ONCE: after any attempts killed at any ticks and one that is not, the charge rows are those
      the plan's sql entries ask for, in plan order, and the receipts those of its fs entries, with no
      other row or file; and the turn is committed. */
  lemma ExactlyOnce(turn: string, plan: seq<Entry>, kills: seq<int>)
    ensures var r := RunTurn(Attempts(BLANK, turn, plan, kills), turn, plan, Time(0, 0));
            && r.Alive?
            && r.disk.charges == Charges(plan)
            && r.disk.committed == Receipts(turn, plan)
            && Has(r.disk.wal, TurnCommitted, turn)
  {
    assert plan[..0] == [];
    var m := AttemptsKeepInv(BLANK, turn, plan, 0, kills);
    var d := Attempts(BLANK, turn, plan, kills);
    CrashesIff(d, turn, plan, 0);
    m := TurnKeepsInv(d, turn, plan, m, Time(0, 0));
    assert plan[..|plan|] == plan;
  }

  /** However the attempts died, what is on disk is a prefix of the plan, and a turn marked committed has
      all of it. */
  lemma AlwaysAPlanPrefix(turn: string, plan: seq<Entry>, kills: seq<int>) returns (m: nat)
    ensures var d := Attempts(BLANK, turn, plan, kills);
            && m <= |plan|
            && d.charges == Charges(plan[..m]) && d.committed == Receipts(turn, plan[..m])
            && (Has(d.wal, TurnCommitted, turn) ==> m == |plan|)
  {
    assert plan[..0] == [];
    m := AttemptsKeepInv(BLANK, turn, plan, 0, kills);
  }

  /** A clean run of a plan has four boundaries per effect, two per other entry, and two more. */
  lemma CleanRunTicks(turn: string, plan: seq<Entry>, killAt: int)
    requires forall e :: e in plan ==> !e.Other?
    ensures RunTurn(BLANK, turn, plan, Time(0, killAt)).Crashed? <==> 1 <= killAt <= 2 + 4 * |plan|
  {
    CrashesIff(BLANK, turn, plan, killAt);
    NothingEffected(turn, plan, 0);
  }

  lemma {:induction false} NothingEffected(turn: string, plan: seq<Entry>, i: nat)
    requires i <= |plan| && forall e :: e in plan ==> !e.Other?
    ensures Uneffected(BLANK, turn, plan, i) == |plan| - i
    decreases |plan| - i
  {
    if i < |plan| {
      assert plan[i] in plan;
      NothingEffected(turn, plan, i + 1);
    }
  }
}
