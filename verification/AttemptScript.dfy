/** An attempt as a list of durable operations: what a call and a whole turn do, in what order, and how they end, for
    every durable state and every crash point, whether or not the state can be reached. */
module AttemptScript {
  import opened Identity
  import opened Gateway
  import opened TurnRun

  /** The durable operations of a call. */
  datatype Act =
    | Mark(klass: ToolClass, status: Status)   // the row of the call, without a result
    | Answer(klass: ToolClass)                 // the row of the call, committed with its result
    | ChargeAndAnswer                          // the charge and the committed row in one transaction
    | WriteTemp
    | RenameTemp
    | PostOnce
    | StartSaga
    | UndoSaga
    | SendMail

  function RowOf(gw: Gw, key: Key, item: Item, klass: ToolClass, status: Status, result: Option<Value>): KeyRow {
    if key in gw.keys then KeyRow(gw.keys[key].argsFp, status, gw.keys[key].klass, result)
    else KeyRow(FingerprintOf(item.args), status, klass, result)
  }

  /** The result of an effect that has just happened. */
  function ResultOf(gw: Gw, key: Key, item: Item): Value {
    match item.tool
    case PureTool => Looked(item.args)
    case HttpCharge => Served(if key in gw.service.seen then gw.service.seen[key] else 0)
    case Charge => Charged(item.args.order)
    case Receipt => Path(key)
    case Saga => SagaDone
    case Email => Sent(if gw.mails == [] then 0 else |gw.mails| - 1)
  }

  function Perform(gw: Gw, key: Key, item: Item, act: Act): Gw {
    match act
    case Mark(klass, status) => gw.(keys := gw.keys[key := RowOf(gw, key, item, klass, status, None)])
    case Answer(klass) =>
      gw.(keys := gw.keys[key := RowOf(gw, key, item, klass, Committed, Some(ResultOf(gw, key, item)))])
    case ChargeAndAnswer =>
      gw.(charges := gw.charges + [ChargeRow(key, item.args.order, item.args.amount)],
          keys := gw.keys[key := RowOf(gw, key, item, Transactional, Committed, Some(Charged(item.args.order)))])
    case WriteTemp => gw.(overlay := gw.overlay[key := item.args.order + "\n"])
    case RenameTemp =>
      gw.(committed := gw.committed[key := item.args.order + "\n"], overlay := gw.overlay - {key})
    case PostOnce =>
      var n := gw.service.ledger + 1;
      if key in gw.service.seen then gw else gw.(service := Service(n, gw.service.seen[key := n]))
    case StartSaga => gw.(sagas := gw.sagas + [key])
    case UndoSaga => gw.(compensations := gw.compensations + [key])
    case SendMail => gw.(mails := gw.mails + [MailRow(key, item.args.to)])
  }

  /** The first `n` of a list of operations. */
  function PerformSome(gw: Gw, key: Key, item: Item, acts: seq<Act>, n: nat): Gw
    decreases n
  {
    if n == 0 || acts == [] then gw
    else PerformSome(Perform(gw, key, item, acts[0]), key, item, acts[1..], n - 1)
  }

  /** A row of the action is there, made with other arguments. */
  predicate Mismatched(gw: Gw, key: Key, item: Item) {
    key in gw.keys && gw.keys[key].argsFp.args != item.args
  }

  /** The call is answered from its row, if that was made with the same arguments. */
  predicate IsAnswered(gw: Gw, key: Key, item: Item) {
    key in gw.keys && (gw.keys[key].status.Committed? || gw.keys[key].status.Compensated? || item.tool.Email?)
  }

  /** The operations of a whole call, in order. */
  function CallActs(gw: Gw, key: Key, item: Item): seq<Act> {
    if Mismatched(gw, key, item) || IsAnswered(gw, key, item) then []
    else
      match item.tool
      case PureTool => [Answer(Pure)]
      case HttpCharge => [PostOnce, Answer(Idempotent)]
      case Charge => [ChargeAndAnswer]
      case Receipt =>
        if key in gw.committed then [Answer(Overlay)] else [WriteTemp, RenameTemp, Answer(Overlay)]
      case Saga =>
        if key in gw.keys && gw.keys[key].status.EffectStarted?
        then [UndoSaga, Mark(Compensatable, Compensated)]
        else [Mark(Compensatable, Prepared), Mark(Compensatable, EffectStarted), StartSaga, Answer(Compensatable)]
      case Email => [Mark(Irreversible, Prepared), SendMail, Answer(Irreversible)]
  }

  /** What a call that lives answers, from the state it finds and its row in the state it leaves. */
  function AnswerOf(gw: Gw, key: Key, item: Item, gw': Gw): CallResult {
    if Mismatched(gw, key, item) then ContentMismatch
    else if key in gw.keys && gw.keys[key].status.Committed? then DedupHit(gw.keys[key].result)
    else if key in gw.keys
            && (gw.keys[key].status.Compensated? || (item.tool.Saga? && gw.keys[key].status.EffectStarted?))
    then CompensatedResult
    else if key in gw.keys && item.tool.Email? then Uncertain
    else if key in gw'.keys then Done(gw'.keys[key].result)
    else Done(None)
  }

  /** What the first `n` of at most three operations leave. */
  lemma {:induction false} PerformUpToThree(gw: Gw, key: Key, item: Item, acts: seq<Act>, n: nat)
    requires 1 <= |acts| <= 3
    ensures var one := Perform(gw, key, item, acts[0]);
            PerformSome(gw, key, item, acts, n) ==
              if n == 0 then gw
              else if n == 1 || |acts| == 1 then one
              else if n == 2 || |acts| == 2 then Perform(one, key, item, acts[1])
              else Perform(Perform(one, key, item, acts[1]), key, item, acts[2])
    decreases n
  {
    hide Perform;
    if n > 0 && |acts| > 1 {
      PerformUpToThree(Perform(gw, key, item, acts[0]), key, item, acts[1..], n - 1);
    }
  }

  /** The call does its operations in order until it is cut, dies exactly when cut before the last, and otherwise
      answers. */
  ghost predicate RunsScript(gw: Gw, key: Key, item: Item, fuel: nat, r: Run<CallResult>) {
    var acts := CallActs(gw, key, item);
    && r.gw == PerformSome(gw, key, item, acts, fuel)
    && (r.Died? <==> fuel < |acts|)
    && (r.Returned? ==> r.fuel == fuel - |acts| && r.result == AnswerOf(gw, key, item, r.gw))
  }

  lemma PureScript(gw: Gw, key: Key, item: Item, fuel: nat)
    requires item.tool.PureTool? && CallActs(gw, key, item) != []
    ensures RunsScript(gw, key, item, fuel, Call(gw, key, item, fuel))
  {
    PerformUpToThree(gw, key, item, CallActs(gw, key, item), fuel);
  }

  lemma HttpScript(gw: Gw, key: Key, item: Item, fuel: nat)
    requires item.tool.HttpCharge? && CallActs(gw, key, item) != []
    ensures RunsScript(gw, key, item, fuel, Call(gw, key, item, fuel))
  {
    PerformUpToThree(gw, key, item, CallActs(gw, key, item), fuel);
  }

  lemma ChargeScript(gw: Gw, key: Key, item: Item, fuel: nat)
    requires item.tool.Charge? && CallActs(gw, key, item) != []
    ensures RunsScript(gw, key, item, fuel, Call(gw, key, item, fuel))
  {
    PerformUpToThree(gw, key, item, CallActs(gw, key, item), fuel);
  }

  lemma ReceiptScript(gw: Gw, key: Key, item: Item, fuel: nat)
    requires item.tool.Receipt? && CallActs(gw, key, item) != []
    ensures RunsScript(gw, key, item, fuel, Call(gw, key, item, fuel))
  {
    PerformUpToThree(gw, key, item, CallActs(gw, key, item), fuel);
  }

  lemma EmailScript(gw: Gw, key: Key, item: Item, fuel: nat)
    requires item.tool.Email? && CallActs(gw, key, item) != []
    ensures RunsScript(gw, key, item, fuel, Call(gw, key, item, fuel))
  {
    PerformUpToThree(gw, key, item, CallActs(gw, key, item), fuel);
    assert Perform(gw, key, item, Mark(Irreversible, Prepared)) == Record(gw, key, item, Prepared, None);
  }

  lemma UndoScript(gw: Gw, key: Key, item: Item, fuel: nat)
    requires item.tool.Saga? && key in gw.keys && gw.keys[key].status.EffectStarted? && !Mismatched(gw, key, item)
    ensures RunsScript(gw, key, item, fuel, Call(gw, key, item, fuel))
  {
    PerformUpToThree(gw, key, item, CallActs(gw, key, item), fuel);
  }

  lemma SagaScript(gw: Gw, key: Key, item: Item, fuel: nat)
    requires item.tool.Saga? && CallActs(gw, key, item) != []
    requires key in gw.keys ==> !gw.keys[key].status.EffectStarted?
    ensures RunsScript(gw, key, item, fuel, Call(gw, key, item, fuel))
  {
    var acts := CallActs(gw, key, item);
    var one := Perform(gw, key, item, acts[0]);
    var two := Perform(one, key, item, acts[1]);
    assert one == Record(gw, key, item, Prepared, None);
    assert two == Record(one, key, item, EffectStarted, None);
    if fuel > 0 {
      PerformUpToThree(one, key, item, acts[1..], fuel - 1);
    }
  }

  /** A CALL IS ITS SCRIPT, cut after any number of operations: from every durable state, whoever made it, the call
      performs the listed operations in order, dies exactly when it is cut before the last of them, and otherwise
      answers as listed.  In particular it raises a mismatch exactly when its row was made with other arguments,
      whatever the status of that row, and then it changes nothing. */
  lemma CallIsScript(gw: Gw, key: Key, item: Item, fuel: nat)
    ensures RunsScript(gw, key, item, fuel, Call(gw, key, item, fuel))
    ensures var r := Call(gw, key, item, fuel);
            && (r.Returned? && r.result.ContentMismatch? <==> Mismatched(gw, key, item))
            && (Mismatched(gw, key, item) || IsAnswered(gw, key, item) ==> r.Returned? && r.gw == gw && r.fuel == fuel)
  {
    if CallActs(gw, key, item) != [] {
      match item.tool
      case PureTool => PureScript(gw, key, item, fuel);
      case HttpCharge => HttpScript(gw, key, item, fuel);
      case Charge => ChargeScript(gw, key, item, fuel);
      case Receipt => ReceiptScript(gw, key, item, fuel);
      case Email => EmailScript(gw, key, item, fuel);
      case Saga =>
        if key in gw.keys && gw.keys[key].status.EffectStarted? {
          UndoScript(gw, key, item, fuel);
        } else {
          SagaScript(gw, key, item, fuel);
        }
    }
  }

  // ---- a whole attempt ----

  datatype Op = Log(rec: Rec) | Gate(key: Key, item: Item, act: Act)

  function Do(sys: Sys, id: TurnId, op: Op): Sys {
    match op
    case Log(rec) => sys.(wal := sys.wal + [WalRow(id, rec)])
    case Gate(key, item, act) => sys.(gw := Perform(sys.gw, key, item, act))
  }

  /** The first `n` of a list of operations. */
  function Replay(sys: Sys, id: TurnId, ops: seq<Op>, n: nat): Sys
    decreases n
  {
    if n == 0 || ops == [] then sys else Replay(Do(sys, id, ops[0]), id, ops[1..], n - 1)
  }

  function Gates(key: Key, item: Item, acts: seq<Act>): seq<Op> {
    seq(|acts|, j requires 0 <= j < |acts| => Gate(key, item, acts[j]))
  }

  /** One action: its preparation is logged, it is called, and unless the call raises its key is logged as observed. */
  function ActionOps(gw: Gw, id: TurnId, plan: ToolPlan, i: nat): seq<Op>
    requires i < |plan|
  {
    var key := ActionId(id.session, id.turn, CommitIdOf(plan), i);
    [Log(ActionPrepared(plan[i].tool))] + Gates(key, plan[i], CallActs(gw, key, plan[i]))
    + if Mismatched(gw, key, plan[i]) then [] else [Log(ObservationCommitted(key))]
  }

  /** The operations from action `i` on; an action whose call raises is the last. */
  function OpsFrom(gw: Gw, ended: bool, id: TurnId, plan: ToolPlan, i: nat): seq<Op>
    requires i <= |plan|
    decreases |plan| - i
  {
    if i == |plan| then if ended then [] else [Log(TurnCommitted)]
    else
      ActionOps(gw, id, plan, i)
      + if Mismatched(gw, KeyAt(id, plan, i), plan[i]) then [] else OpsFrom(gw, ended, id, plan, i + 1)
  }

  /** The operations of a whole attempt, in order, from the state it finds. */
  function AttemptOps(sys: Sys, id: TurnId, plan: ToolPlan): seq<Op> {
    (if WalRow(id, BeginTurn) in sys.wal then [] else [Log(BeginTurn)])
    + OpsFrom(sys.gw, WalRow(id, TurnCommitted) in sys.wal, id, plan, 0)
  }

  ghost predicate SomeMismatch(gw: Gw, id: TurnId, plan: ToolPlan, from: nat) {
    exists i :: from <= i < |plan| && Mismatched(gw, KeyAt(id, plan, i), plan[i])
  }

  lemma {:induction false} ReplayConcat(sys: Sys, id: TurnId, a: seq<Op>, b: seq<Op>, n: nat)
    ensures Replay(sys, id, a + b, n) ==
            if n < |a| then Replay(sys, id, a, n) else Replay(Replay(sys, id, a, n), id, b, n - |a|)
    decreases n
  {
    hide Do;
    if a == [] {
      assert a + b == b;
    } else if n > 0 {
      assert (a + b)[1..] == a[1..] + b;
      ReplayConcat(Do(sys, id, a[0]), id, a[1..], b, n - 1);
    }
  }

  lemma {:induction false} ReplayGates(sys: Sys, id: TurnId, key: Key, item: Item, acts: seq<Act>, n: nat)
    ensures Replay(sys, id, Gates(key, item, acts), n) == sys.(gw := PerformSome(sys.gw, key, item, acts, n))
    decreases n
  {
    hide Perform;
    if n > 0 && acts != [] {
      assert Gates(key, item, acts)[1..] == Gates(key, item, acts[1..]);
      ReplayGates(Do(sys, id, Gate(key, item, acts[0])), id, key, item, acts[1..], n - 1);
    }
  }

  lemma ReplayHead(sys: Sys, id: TurnId, rec: Rec, rest: seq<Op>, n: nat)
    requires n > 0
    ensures Replay(sys, id, [Log(rec)] + rest, n) == Replay(Append(sys, id, rec), id, rest, n - 1)
  {
    assert ([Log(rec)] + rest)[1..] == rest;
  }

  /** What a call would do and answer depends on what concerns its key. */
  lemma SameScript(gw: Gw, gw': Gw, key: Key, item: Item)
    requires ViewOf(gw, key) == ViewOf(gw', key)
    ensures CallActs(gw, key, item) == CallActs(gw', key, item)
    ensures Mismatched(gw, key, item) == Mismatched(gw', key, item)
    ensures forall a, b :: ViewOf(a, key) == ViewOf(b, key) ==>
              AnswerOf(gw, key, item, a) == AnswerOf(gw', key, item, b)
  {
    assert Lookup(gw.keys, key) == Lookup(gw'.keys, key);
    assert Lookup(gw.committed, key) == Lookup(gw'.committed, key);
    forall a, b | ViewOf(a, key) == ViewOf(b, key)
      ensures AnswerOf(gw, key, item, a) == AnswerOf(gw', key, item, b)
    {
      assert Lookup(a.keys, key) == Lookup(b.keys, key);
    }
  }

  lemma {:induction false} SameOps(gw: Gw, gw': Gw, ended: bool, id: TurnId, plan: ToolPlan, i: nat)
    requires i <= |plan|
    requires forall j :: i <= j < |plan| ==> ViewOf(gw, KeyAt(id, plan, j)) == ViewOf(gw', KeyAt(id, plan, j))
    ensures OpsFrom(gw, ended, id, plan, i) == OpsFrom(gw', ended, id, plan, i)
    decreases |plan| - i
  {
    hide ViewOf, CallActs, Mismatched;
    if i < |plan| {
      SameScript(gw, gw', KeyAt(id, plan, i), plan[i]);
      SameOps(gw, gw', ended, id, plan, i + 1);
    }
  }

  /** One call with a rest of operations behind it. */
  lemma ReplayCall(sys: Sys, id: TurnId, key: Key, item: Item, rest: seq<Op>, fuel: nat)
    ensures var c := Call(sys.gw, key, item, fuel);
            Replay(sys, id, Gates(key, item, CallActs(sys.gw, key, item)) + rest, fuel) ==
              if c.Died? then sys.(gw := c.gw) else Replay(sys.(gw := c.gw), id, rest, c.fuel)
  {
    hide Call, CallActs, Mismatched, AnswerOf, IsAnswered, Perform, Do, PerformSome;
    var acts := CallActs(sys.gw, key, item);
    CallIsScript(sys.gw, key, item, fuel);
    ReplayGates(sys, id, key, item, acts, fuel);
    ReplayConcat(sys, id, Gates(key, item, acts), rest, fuel);
    hide Replay;
  }

  /** One action with a rest of operations behind it. */
  lemma ReplayAction(sys: Sys, id: TurnId, plan: ToolPlan, i: nat, fuel: nat, rest: seq<Op>)
    requires i < |plan| && fuel > 0
    ensures var key, prepared := KeyAt(id, plan, i), Append(sys, id, ActionPrepared(plan[i].tool));
            var r := Call(prepared.gw, key, plan[i], fuel - 1);
            var called := prepared.(gw := r.gw);
            Replay(sys, id, ActionOps(sys.gw, id, plan, i) + rest, fuel) ==
              if r.Died? then called
              else if Mismatched(sys.gw, key, plan[i]) then Replay(called, id, rest, r.fuel)
              else if r.fuel == 0 then called
              else Replay(Append(called, id, ObservationCommitted(key)), id, rest, r.fuel - 1)
  {
    hide Call, CallActs, Mismatched, Do;
    var key, prepared := KeyAt(id, plan, i), Append(sys, id, ActionPrepared(plan[i].tool));
    var log, gates := Log(ActionPrepared(plan[i].tool)), Gates(key, plan[i], CallActs(sys.gw, key, plan[i]));
    var seen: seq<Op> := if Mismatched(sys.gw, key, plan[i]) then [] else [Log(ObservationCommitted(key))];
    assert ActionOps(sys.gw, id, plan, i) + rest == [log] + (gates + (seen + rest));
    assert seen == [] ==> seen + rest == rest;
    hide ActionOps, Gates;
    ReplayHead(sys, id, log.rec, gates + (seen + rest), fuel);
    ReplayCall(prepared, id, key, plan[i], seen + rest, fuel - 1);
    var r := Call(prepared.gw, key, plan[i], fuel - 1);
    if r.Returned? && seen != [] && r.fuel > 0 {
      ReplayHead(prepared.(gw := r.gw), id, ObservationCommitted(key), rest, r.fuel);
    }
  }

  /** An attempt leaves what concerns a key that it does not call. */
  lemma {:induction false} RunFromFrames(sys: Sys, id: TurnId, plan: ToolPlan, i: nat, fuel: nat,
                                         results: seq<CallResult>, key: Key)
    requires i <= |plan| && forall j :: i <= j < |plan| ==> KeyAt(id, plan, j) != key
    ensures ViewOf(RunFrom(sys, id, plan, i, fuel, results).sys.gw, key) == ViewOf(sys.gw, key)
    decreases |plan| - i
  {
    hide Call, Records, ViewOf;
    if i < |plan| && fuel > 0 {
      var prepared := Append(sys, id, ActionPrepared(plan[i].tool));
      var r := Call(prepared.gw, KeyAt(id, plan, i), plan[i], fuel - 1);
      CallFrames(prepared.gw, KeyAt(id, plan, i), plan[i], fuel - 1, key);
      if r.Returned? && !r.result.ContentMismatch? && r.fuel > 0 {
        var observed := Append(prepared.(gw := r.gw), id, ObservationCommitted(KeyAt(id, plan, i)));
        RunFromFrames(observed, id, plan, i + 1, r.fuel - 1, results + [r.result], key);
      }
    }
  }

  /** From action |results| on the operations are done in order until the attempt is cut; otherwise it ends by raising,
      or with the answers of its calls. */
  ghost predicate Follows(sys: Sys, id: TurnId, plan: ToolPlan, fuel: nat, results: seq<CallResult>, r: RunResult)
    requires |results| <= |plan|
  {
    var ops := OpsFrom(sys.gw, WalRow(id, TurnCommitted) in sys.wal, id, plan, |results|);
    && r.sys == Replay(sys, id, ops, fuel)
    && (r.Crashed? <==> fuel < |ops|)
    && (r.Raised? <==> fuel >= |ops| && SomeMismatch(sys.gw, id, plan, |results|))
    && (r.Finished? ==>
          && |r.results| == |plan|
          && r.results[..|results|] == results
          && Answers(sys.gw, id, plan, |results|, r.results, r.sys.gw))
  }

  ghost predicate Answers(gw: Gw, id: TurnId, plan: ToolPlan, from: nat, results: seq<CallResult>, gw': Gw)
    requires |results| == |plan|
  {
    forall j :: from <= j < |plan| ==> results[j] == AnswerOf(gw, KeyAt(id, plan, j), plan[j], gw')
  }

  lemma LastFollows(sys: Sys, id: TurnId, plan: ToolPlan, fuel: nat, results: seq<CallResult>)
    requires |results| == |plan|
    ensures Follows(sys, id, plan, fuel, results, RunFrom(sys, id, plan, |plan|, fuel, results))
  {
    RecordsHold(sys.wal, id, TurnCommitted);
  }

  /** The states before and after a call of action `i` agree on the actions after it. */
  lemma LaterActionsKept(sys: Sys, observed: Sys, id: TurnId, plan: ToolPlan, i: nat, ended: bool,
                         results: seq<CallResult>, gw': Gw)
    requires i < |plan|
    requires forall j :: i < j < |plan| ==>
               ViewOf(observed.gw, KeyAt(id, plan, j)) == ViewOf(sys.gw, KeyAt(id, plan, j))
    requires !Mismatched(sys.gw, KeyAt(id, plan, i), plan[i])
    ensures OpsFrom(observed.gw, ended, id, plan, i + 1) == OpsFrom(sys.gw, ended, id, plan, i + 1)
    ensures SomeMismatch(observed.gw, id, plan, i + 1) <==> SomeMismatch(sys.gw, id, plan, i)
    ensures |results| == |plan| && Answers(observed.gw, id, plan, i + 1, results, gw') ==>
              Answers(sys.gw, id, plan, i + 1, results, gw')
  {
    hide ViewOf, Mismatched, AnswerOf, CallActs, OpsFrom, KeyAt;
    SameOps(observed.gw, sys.gw, ended, id, plan, i + 1);
    forall j | i < j < |plan|
      ensures Mismatched(observed.gw, KeyAt(id, plan, j), plan[j]) == Mismatched(sys.gw, KeyAt(id, plan, j), plan[j])
      ensures AnswerOf(observed.gw, KeyAt(id, plan, j), plan[j], gw') ==
              AnswerOf(sys.gw, KeyAt(id, plan, j), plan[j], gw')
    {
      SameScript(observed.gw, sys.gw, KeyAt(id, plan, j), plan[j]);
    }
    if SomeMismatch(sys.gw, id, plan, i) {
      var j :| i <= j < |plan| && Mismatched(sys.gw, KeyAt(id, plan, j), plan[j]);
      assert Mismatched(observed.gw, KeyAt(id, plan, j), plan[j]);
    }
    if SomeMismatch(observed.gw, id, plan, i + 1) {
      var j :| i + 1 <= j < |plan| && Mismatched(observed.gw, KeyAt(id, plan, j), plan[j]);
      assert Mismatched(sys.gw, KeyAt(id, plan, j), plan[j]);
    }
  }

  lemma ActionOpsCount(gw: Gw, id: TurnId, plan: ToolPlan, i: nat)
    requires i < |plan|
    ensures var key := KeyAt(id, plan, i);
            |ActionOps(gw, id, plan, i)| ==
              |CallActs(gw, key, plan[i])| + if Mismatched(gw, key, plan[i]) then 1 else 2
  {
  }

  /** The attempt calls its next action, lives, and logs the observation. */
  ghost predicate Observes(sys: Sys, id: TurnId, plan: ToolPlan, i: nat, fuel: nat, observed: Sys, left: nat,
                           result: CallResult)
    requires i < |plan| && fuel > 0
  {
    var key, prepared := KeyAt(id, plan, i), Append(sys, id, ActionPrepared(plan[i].tool));
    var c := Call(prepared.gw, key, plan[i], fuel - 1);
    && c == Returned(c.gw, left + 1, result) && !result.ContentMismatch?
    && observed == Append(prepared.(gw := c.gw), id, ObservationCommitted(key))
  }

  lemma ObservesAction(sys: Sys, id: TurnId, plan: ToolPlan, i: nat, fuel: nat, observed: Sys, left: nat,
                       result: CallResult, rest: seq<Op>)
    requires i < |plan| && fuel > 0 && Observes(sys, id, plan, i, fuel, observed, left, result)
    ensures !Mismatched(sys.gw, KeyAt(id, plan, i), plan[i])
    ensures Replay(sys, id, ActionOps(sys.gw, id, plan, i) + rest, fuel) == Replay(observed, id, rest, left)
    ensures fuel == |ActionOps(sys.gw, id, plan, i)| + left
    ensures result == AnswerOf(sys.gw, KeyAt(id, plan, i), plan[i], observed.gw)
  {
    hide Call, CallActs, AnswerOf, IsAnswered, PerformSome, Replay, Mismatched, KeyAt;
    CallIsScript(sys.gw, KeyAt(id, plan, i), plan[i], fuel - 1);
    ActionOpsCount(sys.gw, id, plan, i);
    ReplayAction(sys, id, plan, i, fuel, rest);
    hide ActionOps;
  }

  lemma ObservesFrames(sys: Sys, id: TurnId, plan: ToolPlan, i: nat, fuel: nat, observed: Sys, left: nat,
                       result: CallResult)
    requires i < |plan| && fuel > 0 && Observes(sys, id, plan, i, fuel, observed, left, result)
    ensures WalRow(id, TurnCommitted) in observed.wal <==> WalRow(id, TurnCommitted) in sys.wal
    ensures forall j :: i < j < |plan| ==> ViewOf(observed.gw, KeyAt(id, plan, j)) == ViewOf(sys.gw, KeyAt(id, plan, j))
  {
    hide Call, ViewOf;
    forall j | i < j < |plan| ensures ViewOf(observed.gw, KeyAt(id, plan, j)) == ViewOf(sys.gw, KeyAt(id, plan, j)) {
      CallFrames(sys.gw, KeyAt(id, plan, i), plan[i], fuel - 1, KeyAt(id, plan, j));
    }
  }

  /** The rest of the attempt does not change the answer already given. */
  lemma AnswerStands(sys: Sys, id: TurnId, plan: ToolPlan, fuel: nat, results: seq<CallResult>, observed: Sys,
                     left: nat, result: CallResult)
    requires |results| < |plan|
    requires result == AnswerOf(sys.gw, KeyAt(id, plan, |results|), plan[|results|], observed.gw)
    ensures var r := RunFrom(observed, id, plan, |results| + 1, left, results + [result]);
            result == AnswerOf(sys.gw, KeyAt(id, plan, |results|), plan[|results|], r.sys.gw)
  {
    var i, key := |results|, KeyAt(id, plan, |results|);
    RunFromFrames(observed, id, plan, i + 1, left, results + [result], key);
    hide RunFrom, AnswerOf, ViewOf, CallActs;
    SameScript(sys.gw, sys.gw, key, plan[i]);
  }

  lemma NextFollows(sys: Sys, id: TurnId, plan: ToolPlan, fuel: nat, results: seq<CallResult>, observed: Sys,
                    left: nat, result: CallResult)
    requires |results| < |plan| && fuel > 0 && Observes(sys, id, plan, |results|, fuel, observed, left, result)
    requires var r := RunFrom(observed, id, plan, |results| + 1, left, results + [result]);
             Follows(observed, id, plan, left, results + [result], r)
    ensures var r := RunFrom(observed, id, plan, |results| + 1, left, results + [result]);
            Follows(sys, id, plan, fuel, results, r)
  {
    hide RunFrom, AnswerOf, Mismatched, ViewOf, CallActs, ActionOps, Replay, SomeMismatch, Records;
    var i, key := |results|, KeyAt(id, plan, |results|);
    var r := RunFrom(observed, id, plan, i + 1, left, results + [result]);
    var ended := WalRow(id, TurnCommitted) in sys.wal;
    ObservesAction(sys, id, plan, i, fuel, observed, left, result, OpsFrom(sys.gw, ended, id, plan, i + 1));
    ObservesFrames(sys, id, plan, i, fuel, observed, left, result);
    hide Observes, KeyAt;
    LaterActionsKept(sys, observed, id, plan, i, ended, if r.Finished? then r.results else [], r.sys.gw);
    AnswerStands(sys, id, plan, fuel, results, observed, left, result);
    assert OpsFrom(sys.gw, ended, id, plan, i) ==
           ActionOps(sys.gw, id, plan, i) + OpsFrom(sys.gw, ended, id, plan, i + 1);
    hide OpsFrom;
    if r.Finished? {
      assert r.results[i] == (results + [result])[i];
      assert r.results[..i] == r.results[..i + 1][..i] == results;
    }
  }

  /** The attempt raises at its next action. */
  lemma RaiseFollows(sys: Sys, id: TurnId, plan: ToolPlan, fuel: nat, results: seq<CallResult>)
    requires |results| < |plan| && fuel > 0 && Mismatched(sys.gw, KeyAt(id, plan, |results|), plan[|results|])
    ensures Follows(sys, id, plan, fuel, results, RunFrom(sys, id, plan, |results|, fuel, results))
  {
    var i, key := |results|, KeyAt(id, plan, |results|);
    CallIsScript(sys.gw, key, plan[i], fuel - 1);
    ReplayAction(sys, id, plan, i, fuel, []);
    ActionOpsCount(sys.gw, id, plan, i);
    assert ActionOps(sys.gw, id, plan, i) + [] == ActionOps(sys.gw, id, plan, i);
    hide Call, Records, ActionOps, AnswerOf, IsAnswered;
  }

  lemma CrashedFollows(sys: Sys, id: TurnId, plan: ToolPlan, fuel: nat, results: seq<CallResult>, r: RunResult)
    requires |results| <= |plan| && r.Crashed?
    requires var ops := OpsFrom(sys.gw, WalRow(id, TurnCommitted) in sys.wal, id, plan, |results|);
             fuel < |ops| && r.sys == Replay(sys, id, ops, fuel)
    ensures Follows(sys, id, plan, fuel, results, r)
  {
    hide OpsFrom, Replay, SomeMismatch, Answers;
  }

  /** The attempt is cut within its next action, or right after the call. */
  lemma CutFollows(sys: Sys, id: TurnId, plan: ToolPlan, fuel: nat, results: seq<CallResult>)
    requires |results| < |plan| && fuel > 0 && !Mismatched(sys.gw, KeyAt(id, plan, |results|), plan[|results|])
    requires var c := Call(sys.gw, KeyAt(id, plan, |results|), plan[|results|], fuel - 1); c.Died? || c.fuel == 0
    ensures Follows(sys, id, plan, fuel, results, RunFrom(sys, id, plan, |results|, fuel, results))
  {
    hide Follows, Call, Records, CallActs, AnswerOf, IsAnswered, PerformSome, Replay, Mismatched;
    var i, key := |results|, KeyAt(id, plan, |results|);
    var rest := OpsFrom(sys.gw, WalRow(id, TurnCommitted) in sys.wal, id, plan, i + 1);
    CallIsScript(sys.gw, key, plan[i], fuel - 1);
    ReplayAction(sys, id, plan, i, fuel, rest);
    ActionOpsCount(sys.gw, id, plan, i);
    hide ActionOps;
    CrashedFollows(sys, id, plan, fuel, results, RunFrom(sys, id, plan, i, fuel, results));
  }

  lemma IdleFollows(sys: Sys, id: TurnId, plan: ToolPlan, results: seq<CallResult>)
    requires |results| < |plan|
    ensures Follows(sys, id, plan, 0, results, RunFrom(sys, id, plan, |results|, 0, results))
  {
    hide Call, Records, CallActs, Mismatched;
  }

  lemma {:induction false} RunFromFollows(sys: Sys, id: TurnId, plan: ToolPlan, fuel: nat, results: seq<CallResult>)
    requires |results| <= |plan|
    ensures Follows(sys, id, plan, fuel, results, RunFrom(sys, id, plan, |results|, fuel, results))
    decreases |plan| - |results|
  {
    hide Call, Follows, Records, RunsScript, Mismatched, IsAnswered;
    var i := |results|;
    if i == |plan| {
      LastFollows(sys, id, plan, fuel, results);
    } else if fuel == 0 {
      IdleFollows(sys, id, plan, results);
    } else {
      var key, prepared := KeyAt(id, plan, i), Append(sys, id, ActionPrepared(plan[i].tool));
      var c := Call(prepared.gw, key, plan[i], fuel - 1);
      if c.Returned? && !c.result.ContentMismatch? && c.fuel > 0 {
        var observed := Append(prepared.(gw := c.gw), id, ObservationCommitted(key));
        RunFromFollows(observed, id, plan, c.fuel - 1, results + [c.result]);
        NextFollows(sys, id, plan, fuel, results, observed, c.fuel - 1, c.result);
      } else if Mismatched(sys.gw, key, plan[i]) {
        RaiseFollows(sys, id, plan, fuel, results);
      } else {
        CallIsScript(sys.gw, key, plan[i], fuel - 1);
        CutFollows(sys, id, plan, fuel, results);
      }
    }
  }

  /** The attempt that begins the turn. */
  lemma FirstIsScript(sys: Sys, id: TurnId, plan: ToolPlan, fuel: nat)
    requires WalRow(id, BeginTurn) !in sys.wal && BeginTurn !in Records(sys.wal, id)
    ensures var ops, r := AttemptOps(sys, id, plan), RunTurn(sys, id, plan, fuel);
            && r.sys == Replay(sys, id, ops, fuel)
            && (r.Crashed? <==> fuel < |ops|)
            && (r.Raised? <==> fuel >= |ops| && SomeMismatch(sys.gw, id, plan, 0))
            && (r.Finished? ==> |r.results| == |plan| && Answers(sys.gw, id, plan, 0, r.results, r.sys.gw))
  {
    hide RunFrom, OpsFrom, SomeMismatch, Answers, Records;
    if fuel > 0 {
      var begun := Append(sys, id, BeginTurn);
      RunFromFollows(begun, id, plan, fuel - 1, []);
      assert WalRow(id, TurnCommitted) in begun.wal <==> WalRow(id, TurnCommitted) in sys.wal;
      ReplayHead(sys, id, BeginTurn, OpsFrom(sys.gw, WalRow(id, TurnCommitted) in sys.wal, id, plan, 0), fuel);
      hide Replay, Append;
    }
  }

  /** AN ATTEMPT IS ITS SCRIPT, cut after any number of operations, from every durable state: the operations listed for
      the state it finds are done in order and no others; it is cut short exactly when fewer operations are left than
      listed; otherwise it raises if some action's row was made with other arguments, and if not it finishes with the
      listed answer of each call. */
  lemma AttemptIsScript(sys: Sys, id: TurnId, plan: ToolPlan, fuel: nat)
    ensures var ops, r := AttemptOps(sys, id, plan), RunTurn(sys, id, plan, fuel);
            && r.sys == Replay(sys, id, ops, fuel)
            && (r.Crashed? <==> fuel < |ops|)
            && (r.Raised? <==> fuel >= |ops| && SomeMismatch(sys.gw, id, plan, 0))
            && (r.Finished? ==> |r.results| == |plan| && Answers(sys.gw, id, plan, 0, r.results, r.sys.gw))
  {
    hide RunFrom, OpsFrom, SomeMismatch, Answers, Records, Replay;
    RecordsHold(sys.wal, id, BeginTurn);
    if BeginTurn in Records(sys.wal, id) {
      RunFromFollows(sys, id, plan, fuel, []);
      assert AttemptOps(sys, id, plan) == OpsFrom(sys.gw, WalRow(id, TurnCommitted) in sys.wal, id, plan, 0);
    } else {
      FirstIsScript(sys, id, plan, fuel);
    }
  }
}
