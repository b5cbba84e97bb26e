/** Distributed turn transactions: the durable tables, the atomic operations on them, and the class
    whose methods perform those operations in place.

    A committed database transaction is one function from tables to tables; a transaction that raises
    or whose process dies is rolled back and leaves the tables as they were. */
module Dtx {
  import opened Identity
  import Json

  datatype TurnKey = TurnKey(session: string, turn: string)

  /** The argument dictionaries of the two tools. */
  datatype Args = ChargeArgs(order: string, amount: int) | ReceiptArgs(order: string, kind: string)
  datatype PlanStep = PlanStep(ordinal: int, args: Args)
  type Plan = seq<PlanStep>

  /** Hashes without collisions: a digest remembers what was hashed. */
  datatype CommitId = CommitIdOf(plan: Plan)
  datatype Fingerprint = FingerprintOf(args: Args)
  type Aid = ActionId<CommitId>

  /** What an action answers: the charge it made, or the path of its receipt, which its id names. */
  datatype Value = Charged(order: string, amount: int) | Path(aid: Aid)
  datatype Klass = Transactional | Overlay

  datatype TurnRow = TurnRow(commitId: CommitId, plan: Plan, committed: bool)
  datatype ActionRow = ActionRow(argsFp: Fingerprint, klass: Klass, result: Option<Value>, ownerEpoch: nat)
  datatype ChargeRow = ChargeRow(order: string, amount: int, aid: Aid)

  /** The tables turn_owner, turns, actions and charges. */
  datatype Db = Db(owner: map<TurnKey, nat>, turns: map<TurnKey, TurnRow>,
                   actions: map<Aid, ActionRow>, charges: seq<ChargeRow>)

  datatype TmpName = TmpName(aid: Aid, pid: int, epoch: nat)

  /** The directories `committed/` (named by action) and `overlay/` (named by action, pid and epoch). */
  datatype Files = Files(committed: map<Aid, string>, overlay: map<TmpName, string>)

  datatype Outcome =
    | Committed(value: Option<Value>)
    | Dedup(value: Option<Value>)
    | StaleOwner
    | ContentMismatch
    | MissingArgument   // the charge finds no amount among its arguments
    | Crashed
  {
    predicate Raised() {
      StaleOwner? || ContentMismatch? || MissingArgument? || Crashed?
    }
  }

  datatype RunResult = Returned(results: seq<Outcome>) | NoPlan | Raised(outcome: Outcome)
  datatype OverlayCrash = NoCrash | HardAfterWrite | HardAfterPublish

  function AidOf(k: TurnKey, commitId: CommitId, ordinal: int): Aid {
    ActionId(k.session, k.turn, commitId, ordinal)
  }

  function KeyOf(aid: Aid): TurnKey {
    TurnKey(aid.session, aid.turn)
  }

  const AMOUNT := "{\"amount\": "
  const KIND := "{\"kind\": \""
  const ORDER := ", \"order\": \""

  /** Canonical JSON text of the arguments, keys in sorted order. */
  function Canon(args: Args): string {
    match args
    case ChargeArgs(order, amount) => AMOUNT + (Decimal(amount) + [','] + (ORDER[1..] + Json.Literal(order, "}")))
    case ReceiptArgs(order, kind) => KIND + Json.Literal(kind, ORDER + Json.Literal(order, "}"))
  }

  // ---- reading it back ----

  /** What follows a prefix. */
  function After(prefix: string, s: string): Option<string> {
    if prefix <= s then Some(s[|prefix|..]) else None
  }

  /** Everything up to a character, and what follows it. */
  function UpTo(c: char, s: string): Option<(string, string)> {
    if s == [] then None
    else if s[0] == c then Some(([], s[1..]))
    else
      match UpTo(c, s[1..])
      case None => None
      case Some((head, rest)) => Some(([s[0]] + head, rest))
  }

  /** A string that ends the object. */
  function ReadLast(s: string): Option<string> {
    match Json.ReadLiteral(s)
    case Some((value, rest)) => if rest == "}" then Some(value) else None
    case None => None
  }

  function ReadCharge(s: string): Option<Args> {
    match UpTo(',', s)
    case None => None
    case Some((amount, rest)) =>
      match After(" \"order\": \"", rest)
      case None => None
      case Some(order) =>
        match ReadLast(order)
        case None => None
        case Some(o) => Some(ChargeArgs(o, IntOf(amount)))
  }

  function ReadReceipt(s: string): Option<Args> {
    match Json.ReadLiteral(s)
    case None => None
    case Some((kind, rest)) =>
      match After(", \"order\": \"", rest)
      case None => None
      case Some(order) =>
        match ReadLast(order)
        case None => None
        case Some(o) => Some(ReceiptArgs(o, kind))
  }

  /** The two dictionaries as a JSON reader finds them: an amount and an order, or a kind and an order. */
  function ReadArgs(s: string): Option<Args> {
    match After("{\"amount\": ", s)
    case Some(rest) => ReadCharge(rest)
    case None =>
      match After("{\"kind\": \"", s)
      case Some(rest) => ReadReceipt(rest)
      case None => None
  }

  lemma AfterIs(prefix: string, rest: string)
    ensures After(prefix, prefix + rest) == Some(rest)
  {
  }

  lemma {:induction false} UpToIs(c: char, head: string, rest: string)
    requires c !in head
    ensures UpTo(c, head + [c] + rest) == Some((head, rest))
  {
    var s := head + [c] + rest;
    if head == [] {
      assert s[1..] == rest;
    } else {
      assert s[0] == head[0] && s[1..] == head[1..] + [c] + rest;
      UpToIs(c, head[1..], rest);
      assert [head[0]] + head[1..] == head;
    }
  }

  lemma LastReads(value: string)
    ensures ReadLast(Json.Literal(value, "}")) == Some(value)
  {
    Json.LiteralReads(value, "}");
  }

  lemma ChargeReads(order: string, amount: int)
    ensures ReadArgs(Canon(ChargeArgs(order, amount))) == Some(ChargeArgs(order, amount))
  {
    hide Decimal, Json.Literal, IntOf, ReadLast, UpTo;
    var last := Json.Literal(order, "}");
    AfterIs(AMOUNT, Decimal(amount) + ([','] + (ORDER[1..] + last)));
    assert Decimal(amount) + ([','] + (ORDER[1..] + last)) == Decimal(amount) + [','] + (ORDER[1..] + last);
    UpToIs(',', Decimal(amount), ORDER[1..] + last);
    AfterIs(ORDER[1..], last);
    DecimalReads(amount);
    LastReads(order);
  }

  lemma ReceiptReads(order: string, kind: string)
    ensures ReadArgs(Canon(ReceiptArgs(order, kind))) == Some(ReceiptArgs(order, kind))
  {
    hide Json.Literal, Json.ReadLiteral, ReadLast;
    var last := Json.Literal(order, "}");
    AfterIs(KIND, Json.Literal(kind, ORDER + last));
    assert Canon(ReceiptArgs(order, kind))[2] != AMOUNT[2];
    Json.LiteralReads(kind, ORDER + last);
    AfterIs(ORDER, last);
    LastReads(order);
  }

  /** The canonical text is JSON for the arguments: each is read back under its own key. */
  lemma CanonReads(args: Args)
    ensures ReadArgs(Canon(args)) == Some(args)
  {
    match args
    case ChargeArgs(order, amount) => ChargeReads(order, amount);
    case ReceiptArgs(order, kind) => ReceiptReads(order, kind);
  }

  /** The canonical text determines the arguments, so a fingerprint may remember either. */
  lemma CanonInjective(a: Args, b: Args)
    ensures Canon(a) == Canon(b) <==> a == b
  {
    CanonReads(a);
    CanonReads(b);
  }

  function OwnerOf(db: Db, k: TurnKey): nat {
    if k in db.owner then db.owner[k] else 0
  }

  // ---- the atomic operations ----

  function AcquireDb(db: Db, k: TurnKey): Db {
    db.(owner := db.owner[k := OwnerOf(db, k) + 1])
  }

  function BeginDb(db: Db, k: TurnKey, plan: Plan): Db {
    if k in db.turns then db
    else db.(turns := db.turns[k := TurnRow(CommitIdOf(plan), plan, false)])
  }

  function LoadDb(db: Db, k: TurnKey): Option<(CommitId, Plan)> {
    if k in db.turns then Some((db.turns[k].commitId, db.turns[k].plan)) else None
  }

  function CommitTurnDb(db: Db, k: TurnKey): Db {
    if k in db.turns then db.(turns := db.turns[k := db.turns[k].(committed := true)]) else db
  }

  /** The fenced claim and its effect, in one transaction. */
  function ChargeTx(db: Db, k: TurnKey, commitId: CommitId, step: PlanStep, epoch: nat, crash: bool): (Db, Outcome) {
    var aid := AidOf(k, commitId, step.ordinal);
    if k !in db.owner || db.owner[k] != epoch then
      (db, StaleOwner)
    else if aid in db.actions then
      if db.actions[aid].argsFp != FingerprintOf(step.args) then (db, ContentMismatch)
      else (db, Dedup(db.actions[aid].result))
    else if !step.args.ChargeArgs? then
      (db, MissingArgument)
    else if crash then
      (db, Crashed)
    else
      var result := Charged(step.args.order, step.args.amount);
      var row := ActionRow(FingerprintOf(step.args), Transactional, Some(result), epoch);
      (db.(actions := db.actions[aid := row],
           charges := db.charges + [ChargeRow(step.args.order, step.args.amount, aid)]),
       Committed(Some(result)))
  }

  function RecordOverlay(db: Db, aid: Aid, args: Args, epoch: nat): Db {
    if aid in db.actions then db
    else db.(actions := db.actions[aid := ActionRow(FingerprintOf(args), Overlay, None, epoch)])
  }

  function WriteTmp(fs: Files, tmp: TmpName, text: string): Files {
    fs.(overlay := fs.overlay[tmp := text])
  }

  /** Atomic rename of a temp file to the final name of its action. */
  function Publish(fs: Files, tmp: TmpName): Files
    requires tmp in fs.overlay
  {
    Files(fs.committed[tmp.aid := fs.overlay[tmp]], fs.overlay - {tmp})
  }

  function OverlayCall(db: Db, fs: Files, k: TurnKey, commitId: CommitId, step: PlanStep, epoch: nat, pid: int,
                       crash: OverlayCrash): (Db, Files, Outcome) {
    var aid := AidOf(k, commitId, step.ordinal);
    if aid in fs.committed then
      (RecordOverlay(db, aid, step.args, epoch), fs, Dedup(Some(Path(aid))))
    else
      var tmp := TmpName(aid, pid, epoch);
      var written := WriteTmp(fs, tmp, Canon(step.args));
      if crash.HardAfterWrite? then (db, written, Crashed)
      else
        var published := Publish(written, tmp);
        if crash.HardAfterPublish? then (db, published, Crashed)
        else (RecordOverlay(db, aid, step.args, epoch), published, Committed(Some(Path(aid))))
  }

  /** What a charge answers and leaves, case by case and from any tables: it is refused without the newest epoch;
      a replay gets the stored result, unless its arguments differ; a first call claims the action and makes the one
      charge it asks for, answering and storing exactly that; nothing else ever changes a table. */
  lemma ChargeAnswers(db: Db, k: TurnKey, commitId: CommitId, step: PlanStep, epoch: nat, crash: bool)
    ensures var (db', r) := ChargeTx(db, k, commitId, step, epoch, crash);
            var aid := AidOf(k, commitId, step.ordinal);
            var current := k in db.owner && db.owner[k] == epoch;
            && (r.StaleOwner? <==> !current)
            && (r.ContentMismatch? <==> current && aid in db.actions && db.actions[aid].argsFp.args != step.args)
            && (r.Dedup? <==> current && aid in db.actions && db.actions[aid].argsFp.args == step.args)
            && (r.Dedup? ==> r.value == db.actions[aid].result)
            && (r.MissingArgument? <==> current && aid !in db.actions && step.args.ReceiptArgs?)
            && (r.Crashed? <==> current && aid !in db.actions && step.args.ChargeArgs? && crash)
            && (r.Committed? <==> current && aid !in db.actions && step.args.ChargeArgs? && !crash)
            && (!r.Committed? ==> db' == db)
            && (r.Committed? ==>
                 var value := Some(Charged(step.args.order, step.args.amount));
                 && r.value == value
                 && db'.charges == db.charges + [ChargeRow(step.args.order, step.args.amount, aid)]
                 && db'.actions == db.actions[aid := ActionRow(FingerprintOf(step.args), Transactional, value, epoch)]
                 && db'.owner == db.owner && db'.turns == db.turns)
  {
  }

  /** What an overlay call answers and leaves, case by case and from any tables and files: an existing final file is
      answered as a duplicate and left alone; otherwise the complete text is published under the action's name, unless
      the process dies, after the write with the temp file left behind, or after the rename with the row missing. */
  lemma OverlayAnswers(db: Db, fs: Files, k: TurnKey, commitId: CommitId, step: PlanStep, epoch: nat, pid: int,
                       crash: OverlayCrash)
    ensures var (db', fs', r) := OverlayCall(db, fs, k, commitId, step, epoch, pid, crash);
            var aid := AidOf(k, commitId, step.ordinal);
            var tmp := TmpName(aid, pid, epoch);
            && (r.Dedup? <==> aid in fs.committed)
            && (r.Committed? <==> aid !in fs.committed && crash.NoCrash?)
            && (r.Crashed? <==> aid !in fs.committed && !crash.NoCrash?)
            && (r.Dedup? || r.Committed? ==> r.value == Some(Path(aid)))
            && (r.Dedup? ==> fs' == fs)
            && (!r.Dedup? && crash.HardAfterWrite? ==>
                 fs'.committed == fs.committed && fs'.overlay == fs.overlay[tmp := Canon(step.args)])
            && (!r.Dedup? && !crash.HardAfterWrite? ==>
                 fs'.committed == fs.committed[aid := Canon(step.args)] && fs'.overlay == fs.overlay - {tmp})
            && (r.Crashed? || aid in db.actions ==> db' == db)
            && (!r.Crashed? && aid !in db.actions ==>
                 db' == db.(actions := db.actions[aid := ActionRow(FingerprintOf(step.args), Overlay, None, epoch)]))
  {
    hide Canon;
    var tmp := TmpName(AidOf(k, commitId, step.ordinal), pid, epoch);
    assert fs.overlay[tmp := Canon(step.args)] - {tmp} == fs.overlay - {tmp};
  }

  /** One pass over the remaining steps of a plan, then the turn commit. */
  function RunSteps(db: Db, k: TurnKey, commitId: CommitId, steps: Plan, epoch: nat, crashAt: Option<int>,
                    done: seq<Outcome>): (Db, RunResult)
    decreases |steps|
  {
    if steps == [] then
      (CommitTurnDb(db, k), Returned(done))
    else
      var (db', outcome) := ChargeTx(db, k, commitId, steps[0], epoch, crashAt == Some(steps[0].ordinal));
      if outcome.Raised() then (db', Raised(outcome))
      else RunSteps(db', k, commitId, steps[1..], epoch, crashAt, done + [outcome])
  }

  function RunTurnDb(db: Db, k: TurnKey, plan: Option<Plan>, epoch: Option<nat>, crashAt: Option<int>)
    : (Db, RunResult)
  {
    var owned := if epoch.None? then AcquireDb(db, k) else db;
    var held := if epoch.None? then OwnerOf(owned, k) else epoch.value;
    if plan.Some? then
      RunSteps(BeginDb(owned, k, plan.value), k, CommitIdOf(plan.value), plan.value, held, crashAt, [])
    else if k !in owned.turns then
      (owned, NoPlan)
    else
      RunSteps(owned, k, owned.turns[k].commitId, owned.turns[k].plan, held, crashAt, [])
  }

  /** `begin_turn` hands back the commit id of its argument.  It is the stored one exactly when the
      turn was not begun before with another plan. */
  lemma BeginReturnsStoredId(db: Db, k: TurnKey, plan: Plan)
    requires k in db.turns ==> db.turns[k].commitId == CommitIdOf(db.turns[k].plan)
    ensures k in BeginDb(db, k, plan).turns
    ensures BeginDb(db, k, plan).turns[k].commitId == CommitIdOf(plan)
       <==> k !in db.turns || db.turns[k].plan == plan
  {
  }

  class DTX {
    var owner: map<TurnKey, nat>
    var turns: map<TurnKey, TurnRow>
    var actions: map<Aid, ActionRow>
    var charges: seq<ChargeRow>
    var committedDir: map<Aid, string>
    var overlayDir: map<TmpName, string>

    function Tables(): Db
      reads this
    {
      Db(owner, turns, actions, charges)
    }

    function Store(): Files
      reads this
    {
      Files(committedDir, overlayDir)
    }

    constructor ()
      ensures Tables() == Db(map[], map[], map[], []) && Store() == Files(map[], map[])
    {
      owner, turns, actions, charges := map[], map[], map[], [];
      committedDir, overlayDir := map[], map[];
    }

    method Acquire(k: TurnKey) returns (epoch: nat)
      modifies this`owner
      ensures Tables() == AcquireDb(old(Tables()), k)
      ensures epoch == OwnerOf(Tables(), k)
      ensures epoch == (if k in old(owner) then old(owner)[k] else 0) + 1 && owner == old(owner)[k := epoch]
    {
      if k in owner {
        owner := owner[k := owner[k] + 1];
      } else {
        owner := owner[k := 1];
      }
      epoch := owner[k];
    }

    method BeginTurn(k: TurnKey, plan: Plan) returns (commitId: CommitId)
      modifies this`turns
      ensures Tables() == BeginDb(old(Tables()), k, plan)
      ensures commitId == CommitIdOf(plan)
      ensures turns == if k in old(turns) then old(turns) else old(turns)[k := TurnRow(commitId, plan, false)]
    {
      commitId := CommitIdOf(plan);
      if k !in turns {
        turns := turns[k := TurnRow(commitId, plan, false)];
      }
    }

    method LoadPlan(k: TurnKey) returns (r: Option<(CommitId, Plan)>)
      ensures r == LoadDb(Tables(), k)
    {
      r := if k in turns then Some((turns[k].commitId, turns[k].plan)) else None;
    }

    /** A raise inside the transaction puts the rows it touched back. */
    method DoCharge(k: TurnKey, commitId: CommitId, step: PlanStep, epoch: nat, crash: bool) returns (r: Outcome)
      modifies this`actions, this`charges
      ensures (Tables(), r) == ChargeTx(old(Tables()), k, commitId, step, epoch, crash)
      ensures r.StaleOwner? <==> k !in owner || owner[k] != epoch
      ensures !r.Committed? ==> actions == old(actions) && charges == old(charges)
      ensures var aid := AidOf(k, commitId, step.ordinal);
              && (r.Dedup? ==> aid in old(actions) && r.value == old(actions)[aid].result
                               && old(actions)[aid].argsFp == FingerprintOf(step.args))
              && (r.ContentMismatch? ==> aid in old(actions) && old(actions)[aid].argsFp != FingerprintOf(step.args))
              && (r.Committed? ==>
                   && aid !in old(actions) && step.args.ChargeArgs? && !crash
                   && r.value == Some(Charged(step.args.order, step.args.amount))
                   && charges == old(charges) + [ChargeRow(step.args.order, step.args.amount, aid)]
                   && actions ==
                        old(actions)[aid := ActionRow(FingerprintOf(step.args), Transactional, r.value, epoch)])
    {
      var aid := AidOf(k, commitId, step.ordinal);
      var afp := FingerprintOf(step.args);
      var savedActions, savedCharges := actions, charges;
      if k !in owner || owner[k] != epoch {
        return StaleOwner;
      }
      if aid in actions {
        var ex := actions[aid];
        if ex.argsFp != afp {
          return ContentMismatch;
        }
        return Dedup(ex.result);
      }
      actions := actions[aid := ActionRow(afp, Transactional, None, epoch)];
      if !step.args.ChargeArgs? {
        actions := savedActions;
        return MissingArgument;
      }
      charges := charges + [ChargeRow(step.args.order, step.args.amount, aid)];
      if crash {
        actions, charges := savedActions, savedCharges;
        return Crashed;
      }
      var res := Charged(step.args.order, step.args.amount);
      actions := actions[aid := actions[aid].(result := Some(res))];
      assert actions == savedActions[aid := ActionRow(afp, Transactional, Some(res), epoch)];
      return Committed(Some(res));
    }

    method RecordOverlayRow(aid: Aid, args: Args, epoch: nat)
      modifies this`actions
      ensures Tables() == RecordOverlay(old(Tables()), aid, args, epoch)
      ensures aid in old(actions) ==> actions == old(actions)
      ensures aid !in old(actions) ==>
                actions == old(actions)[aid := ActionRow(FingerprintOf(args), Overlay, None, epoch)]
    {
      if aid !in actions {
        actions := actions[aid := ActionRow(FingerprintOf(args), Overlay, None, epoch)];
      }
    }

    method DoOverlay(k: TurnKey, commitId: CommitId, step: PlanStep, epoch: nat, pid: int, crash: OverlayCrash)
      returns (r: Outcome)
      modifies this`actions, this`committedDir, this`overlayDir
      ensures (Tables(), Store(), r) == OverlayCall(old(Tables()), old(Store()), k, commitId, step, epoch, pid, crash)
      ensures var aid, tmp := AidOf(k, commitId, step.ordinal), TmpName(AidOf(k, commitId, step.ordinal), pid, epoch);
              && (r.Dedup? <==> aid in old(committedDir))
              && (r.Committed? <==> aid !in old(committedDir) && crash.NoCrash?)
              && (r.Crashed? <==> aid !in old(committedDir) && !crash.NoCrash?)
              && (r.Dedup? || r.Committed? ==> r.value == Some(Path(aid)) && aid in actions)
              && (r.Dedup? ==> committedDir == old(committedDir) && overlayDir == old(overlayDir))
              && (r.Committed? ==> committedDir == old(committedDir)[aid := Canon(step.args)]
                                   && overlayDir == old(overlayDir) - {tmp})
    {
      OverlayAnswers(Tables(), Store(), k, commitId, step, epoch, pid, crash);
      var aid := AidOf(k, commitId, step.ordinal);
      if aid in committedDir {
        RecordOverlayRow(aid, step.args, epoch);
        return Dedup(Some(Path(aid)));
      }
      var tmp := TmpName(aid, pid, epoch);
      overlayDir := overlayDir[tmp := Canon(step.args)];
      if crash.HardAfterWrite? {
        return Crashed;
      }
      committedDir, overlayDir := committedDir[aid := overlayDir[tmp]], overlayDir - {tmp};
      if crash.HardAfterPublish? {
        return Crashed;
      }
      RecordOverlayRow(aid, step.args, epoch);
      return Committed(Some(Path(aid)));
    }

    method RunTurn(k: TurnKey, plan: Option<Plan>, epochArg: Option<nat>, crashAt: Option<int>) returns (r: RunResult)
      modifies this`owner, this`turns, this`actions, this`charges
      ensures (Tables(), r) == RunTurnDb(old(Tables()), k, plan, epochArg, crashAt)
    {
      hide ChargeTx;
      var epoch: nat;
      if epochArg.None? {
        epoch := Acquire(k);
      } else {
        epoch := epochArg.value;
      }
      var cid: CommitId;
      var steps: Plan;
      if plan.Some? {
        cid := BeginTurn(k, plan.value);
        steps := plan.value;
      } else {
        var loaded := LoadPlan(k);
        if loaded.None? {
          return NoPlan;
        }
        cid, steps := loaded.value.0, loaded.value.1;
      }
      ghost var begun := Tables();
      var results := [];
      var i := 0;
      while i < |steps|
        invariant 0 <= i <= |steps|
        invariant RunSteps(Tables(), k, cid, steps[i..], epoch, crashAt, results)
               == RunSteps(begun, k, cid, steps, epoch, crashAt, [])
      {
        var step := steps[i];
        assert steps[i..][0] == step && steps[i..][1..] == steps[i + 1..];
        var outcome := DoCharge(k, cid, step, epoch, crashAt == Some(step.ordinal));
        if outcome.Raised() {
          return Raised(outcome);
        }
        results := results + [outcome];
        i := i + 1;
      }
      if k in turns {
        turns := turns[k := turns[k].(committed := true)];
      }
      return Returned(results);
    }
  }
}
