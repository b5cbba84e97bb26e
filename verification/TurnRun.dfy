/** One owner drives a turn through the log and the gateway; recovery is to run the turn again. */
module TurnRun {
  import opened Identity
  import opened Gateway

  datatype TurnId = TurnId(session: string, turn: string)
  type ToolPlan = seq<Item>

  datatype Rec = BeginTurn | ActionPrepared(tool: Tool) | ObservationCommitted(key: Key) | TurnCommitted
  datatype WalRow = WalRow(id: TurnId, rec: Rec)

  /** Everything that survives a crash. */
  datatype Sys = Sys(wal: seq<WalRow>, gw: Gw)

  datatype RunResult =
    | Crashed(sys: Sys)
    | Raised(sys: Sys)                          // the gateway raised a content mismatch
    | Finished(sys: Sys, results: seq<CallResult>)

  /** The rows of one turn, in log order. */
  function Records(wal: seq<WalRow>, id: TurnId): seq<Rec> {
    if wal == [] then []
    else
      var last := wal[|wal| - 1];
      Records(wal[..|wal| - 1], id) + if last.id == id then [last.rec] else []
  }

  lemma {:induction false} RecordsHold(wal: seq<WalRow>, id: TurnId, rec: Rec)
    ensures rec in Records(wal, id) <==> WalRow(id, rec) in wal
    decreases |wal|
  {
    if wal != [] {
      var init, last := wal[..|wal| - 1], wal[|wal| - 1];
      RecordsHold(init, id, rec);
      assert WalRow(id, rec) in wal <==> WalRow(id, rec) in init || last == WalRow(id, rec) by {
        assert wal == init + [last];
      }
    }
  }

  function Append(sys: Sys, id: TurnId, rec: Rec): Sys {
    sys.(wal := sys.wal + [WalRow(id, rec)])
  }

  function KeyAt(id: TurnId, plan: ToolPlan, i: nat): Key {
    ActionId(id.session, id.turn, CommitIdOf(plan), i)
  }

  /** The loop from action `i` on. */
  function RunFrom(sys: Sys, id: TurnId, plan: ToolPlan, i: nat, fuel: nat, results: seq<CallResult>): RunResult
    requires i <= |plan|
    decreases |plan| - i
  {
    if i == |plan| then
      if TurnCommitted in Records(sys.wal, id) then Finished(sys, results)
      else if fuel == 0 then Crashed(sys)
      else Finished(Append(sys, id, TurnCommitted), results)
    else if fuel == 0 then Crashed(sys)
    else
      var prepared := Append(sys, id, ActionPrepared(plan[i].tool));
      match Call(prepared.gw, KeyAt(id, plan, i), plan[i], fuel - 1)
      case Died(gw) => Crashed(prepared.(gw := gw))
      case Returned(gw, left, result) =>
        var called := prepared.(gw := gw);
        if result.ContentMismatch? then Raised(called)
        else if left == 0 then Crashed(called)
        else
          var observed := Append(called, id, ObservationCommitted(KeyAt(id, plan, i)));
          RunFrom(observed, id, plan, i + 1, left - 1, results + [result])
  }

  function RunTurn(sys: Sys, id: TurnId, plan: ToolPlan, fuel: nat): RunResult {
    if BeginTurn in Records(sys.wal, id) then RunFrom(sys, id, plan, 0, fuel, [])
    else if fuel == 0 then Crashed(sys)
    else RunFrom(Append(sys, id, BeginTurn), id, plan, 0, fuel - 1, [])
  }

  /** The plans that may be brought to each turn, by the first caller or by one that recovers it. */
  type Offers = map<TurnId, set<ToolPlan>>

  predicate Offered(offers: Offers, id: TurnId, plan: ToolPlan) {
    id in offers && plan in offers[id]
  }

  /** Any history: attempts at any turns with any of their plans, each cut after any number of durable operations. */
  datatype Attempt = Attempt(id: TurnId, plan: ToolPlan, fuel: nat)

  function Try(offers: Offers, sys: Sys, a: Attempt): Sys {
    if Offered(offers, a.id, a.plan) then RunTurn(sys, a.id, a.plan, a.fuel).sys else sys
  }

  function Attempts(offers: Offers, sys: Sys, history: seq<Attempt>): Sys
    decreases |history|
  {
    if history == [] then sys else Attempts(offers, Try(offers, sys, history[0]), history[1..])
  }

  const EMPTY := Sys([], Gw(map[], [], map[], map[], Service(0, map[]), [], [], []))

  // ---- the inductive invariant ----

  ghost predicate Observed(sys: Sys, id: TurnId, plan: ToolPlan, i: nat) {
    ObservationCommitted(KeyAt(id, plan, i)) in Records(sys.wal, id)
  }

  ghost predicate KeysOk(sys: Sys, id: TurnId, plan: ToolPlan) {
    forall i :: 0 <= i < |plan| ==> KeyOk(ViewOf(sys.gw, KeyAt(id, plan, i)), KeyAt(id, plan, i), plan[i])
  }

  /** An observation is appended only for an answered call, and in plan order. */
  ghost predicate ObservationsOk(sys: Sys, id: TurnId, plan: ToolPlan) {
    forall i :: 0 <= i < |plan| && Observed(sys, id, plan, i) ==>
      && Answered(ViewOf(sys.gw, KeyAt(id, plan, i)), KeyAt(id, plan, i), plan[i])
      && forall j :: 0 <= j < i ==> Observed(sys, id, plan, j)
  }

  /** What there is of one plan of one turn. */
  ghost predicate PlanOk(sys: Sys, id: TurnId, plan: ToolPlan) {
    KeysOk(sys, id, plan) && ObservationsOk(sys, id, plan)
  }

  /** BEGIN_TURN is first and unique. */
  ghost predicate BeginOk(log: seq<Rec>) {
    && (log != [] ==> log[0] == BeginTurn)
    && forall p :: 0 <= p < |log| && log[p] == BeginTurn ==> p == 0
  }

  ghost predicate ObservedIn(log: seq<Rec>, id: TurnId, plan: ToolPlan) {
    forall i :: 0 <= i < |plan| ==> ObservationCommitted(KeyAt(id, plan, i)) in log
  }

  /** Every action of one of the plans brought to the turn is observed. */
  ghost predicate SomePlanObserved(offers: Offers, log: seq<Rec>, id: TurnId) {
    exists plan :: Offered(offers, id, plan) && ObservedIn(log, id, plan)
  }

  /** TURN_COMMITTED is unique and preceded by an observation of every action of a plan brought to the turn. */
  ghost predicate CommitOk(offers: Offers, log: seq<Rec>, id: TurnId) {
    && (forall p, q :: 0 <= p < |log| && 0 <= q < |log| && log[p] == TurnCommitted && log[q] == TurnCommitted ==>
        p == q)
    && (forall p :: 0 <= p < |log| && log[p] == TurnCommitted ==> SomePlanObserved(offers, log[..p], id))
  }

  ghost predicate IsActionOf(offers: Offers, key: Key, id: TurnId) {
    exists plan, i: nat :: Offered(offers, id, plan) && i < |plan| && key == KeyAt(id, plan, i)
  }

  /** Only actions of plans brought to the turn are observed. */
  ghost predicate KnownKeys(offers: Offers, log: seq<Rec>, id: TurnId) {
    forall k :: ObservationCommitted(k) in log ==> IsActionOf(offers, k, id)
  }

  ghost predicate LogOk(offers: Offers, log: seq<Rec>, id: TurnId) {
    BeginOk(log) && CommitOk(offers, log, id) && KnownKeys(offers, log, id)
  }

  ghost predicate Inv(offers: Offers, sys: Sys) {
    && (forall id, plan :: PlanOk(sys, id, plan))
    && (forall id :: LogOk(offers, Records(sys.wal, id), id))
    && ServiceOk(sys.gw.service)
  }

  lemma AppendRecords(sys: Sys, id: TurnId, rec: Rec, other: TurnId)
    ensures Records(Append(sys, id, rec).wal, other) == Records(sys.wal, other) + if other == id then [rec] else []
  {
    assert (sys.wal + [WalRow(id, rec)])[..|sys.wal|] == sys.wal;
  }

  lemma AppendObserved(sys: Sys, id: TurnId, rec: Rec, other: TurnId, plan: ToolPlan, i: nat)
    ensures Observed(Append(sys, id, rec), other, plan, i) <==>
            Observed(sys, other, plan, i) || (other == id && rec == ObservationCommitted(KeyAt(id, plan, i)))
  {
    AppendRecords(sys, id, rec, other);
  }

  // ---- rows of the log ----

  /** What a row appended to a turn's log must satisfy: first comes BEGIN_TURN, TURN_COMMITTED comes once and after
      all observations of a plan brought to the turn, and only its actions are observed. */
  ghost predicate MayAppend(offers: Offers, log: seq<Rec>, id: TurnId, rec: Rec) {
    && (rec == BeginTurn <==> log == [])
    && (rec == TurnCommitted ==> TurnCommitted !in log && SomePlanObserved(offers, log, id))
    && (rec.ObservationCommitted? ==> IsActionOf(offers, rec.key, id))
  }

  lemma AppendKeepsLogOk(offers: Offers, log: seq<Rec>, id: TurnId, rec: Rec)
    requires LogOk(offers, log, id) && MayAppend(offers, log, id, rec)
    ensures LogOk(offers, log + [rec], id)
  {
    hide SomePlanObserved, IsActionOf;
    var log' := log + [rec];
    forall p | 0 <= p < |log'| && log'[p] == TurnCommitted ensures SomePlanObserved(offers, log'[..p], id) {
      if p < |log| {
        assert log'[..p] == log[..p] && log[p] == TurnCommitted;
      } else {
        assert log'[..p] == log;
      }
    }
    assert forall r :: r in log' <==> r in log || r == rec;
  }

  /** An action that is observed now was answered, after all its predecessors in the plan. */
  ghost predicate MayObserve(sys: Sys, id: TurnId, plan: ToolPlan, i: nat)
    requires i < |plan|
  {
    && Answered(ViewOf(sys.gw, KeyAt(id, plan, i)), KeyAt(id, plan, i), plan[i])
    && forall j :: 0 <= j < i ==> Observed(sys, id, plan, j)
  }

  lemma AppendKeepsPlanOk(sys: Sys, id: TurnId, rec: Rec, other: TurnId, plan: ToolPlan)
    requires PlanOk(sys, other, plan)
    requires forall i :: 0 <= i < |plan| && other == id && rec == ObservationCommitted(KeyAt(id, plan, i)) ==>
               MayObserve(sys, id, plan, i)
    ensures PlanOk(Append(sys, id, rec), other, plan)
  {
    hide ViewOf, Answered, KeyOk;
    forall i ensures Observed(Append(sys, id, rec), other, plan, i) <==>
                     Observed(sys, other, plan, i) || (other == id && rec == ObservationCommitted(KeyAt(id, plan, i)))
    {
      AppendObserved(sys, id, rec, other, plan, i);
    }
    hide Observed;
  }

  /** A row keeps the whole invariant. */
  lemma AppendKeepsInv(offers: Offers, sys: Sys, id: TurnId, rec: Rec)
    requires Inv(offers, sys) && MayAppend(offers, Records(sys.wal, id), id, rec)
    requires forall plan: ToolPlan, i :: 0 <= i < |plan| && rec == ObservationCommitted(KeyAt(id, plan, i)) ==>
               MayObserve(sys, id, plan, i)
    ensures Inv(offers, Append(sys, id, rec))
  {
    var sys' := Append(sys, id, rec);
    forall other, plan ensures PlanOk(sys', other, plan) {
      assert PlanOk(sys, other, plan);
      AppendKeepsPlanOk(sys, id, rec, other, plan);
    }
    hide PlanOk, LogOk, MayObserve;
    forall other ensures LogOk(offers, Records(sys'.wal, other), other) {
      AppendRecords(sys, id, rec, other);
      if other == id {
        AppendKeepsLogOk(offers, Records(sys.wal, id), id, rec);
      } else {
        assert Records(sys.wal, other) + [] == Records(sys.wal, other);
      }
    }
  }

  // ---- calls ----

  lemma CallKeepsPlanOk(sys: Sys, id: TurnId, plan: ToolPlan, i: nat, fuel: nat, other: TurnId, plan': ToolPlan)
    requires i < |plan| && PlanOk(sys, id, plan) && PlanOk(sys, other, plan')
    ensures PlanOk(sys.(gw := Call(sys.gw, KeyAt(id, plan, i), plan[i], fuel).gw), other, plan')
  {
    hide Call, ViewOf, KeyOk, Answered, Records;
    var key := KeyAt(id, plan, i);
    var gw' := Call(sys.gw, key, plan[i], fuel).gw;
    var sys' := sys.(gw := gw');
    CallKeepsKey(sys.gw, key, plan[i], fuel);
    assert forall j :: Observed(sys', other, plan', j) == Observed(sys, other, plan', j);
    forall j | 0 <= j < |plan'|
      ensures KeyOk(ViewOf(gw', KeyAt(other, plan', j)), KeyAt(other, plan', j), plan'[j])
      ensures Answered(ViewOf(sys.gw, KeyAt(other, plan', j)), KeyAt(other, plan', j), plan'[j]) ==>
                Answered(ViewOf(gw', KeyAt(other, plan', j)), KeyAt(other, plan', j), plan'[j])
    {
      if KeyAt(other, plan', j) == key {
        if Answered(ViewOf(sys.gw, key), key, plan[i]) {
          AnsweredIsFinal(sys.gw, key, plan[i], fuel);
        }
      } else {
        CallFrames(sys.gw, key, plan[i], fuel, KeyAt(other, plan', j));
      }
    }
    hide Observed;
  }

  /** What a result tells about the row of its action. */
  ghost predicate Reported(v: View, result: CallResult) {
    && v.row.Some?
    && match result
       case Done(value) => v.row.value.status.Committed? && v.row.value.result == value
       case DedupHit(value) => v.row.value.status.Committed? && v.row.value.result == value
       case Uncertain => v.row.value.status.Prepared?
       case CompensatedResult => v.row.value.status.Compensated?
       case ContentMismatch => false
  }

  lemma CallKeepsInv(offers: Offers, sys: Sys, id: TurnId, plan: ToolPlan, i: nat, fuel: nat)
    requires Inv(offers, sys) && i < |plan|
    ensures var key := KeyAt(id, plan, i);
            var r := Call(sys.gw, key, plan[i], fuel);
            && Inv(offers, sys.(gw := r.gw))
            && (r.Returned? ==> !r.result.ContentMismatch? && Answered(ViewOf(r.gw, key), key, plan[i])
                                && Reported(ViewOf(r.gw, key), r.result))
  {
    var key := KeyAt(id, plan, i);
    assert PlanOk(sys, id, plan);
    CallKeepsKey(sys.gw, key, plan[i], fuel);
    CallKeepsService(sys.gw, key, plan[i], fuel);
    hide Call, ViewOf, KeyOk, LogOk, ServiceOk;
    forall other, plan' ensures PlanOk(sys.(gw := Call(sys.gw, key, plan[i], fuel).gw), other, plan') {
      assert PlanOk(sys, other, plan');
      CallKeepsPlanOk(sys, id, plan, i, fuel, other, plan');
    }
  }

  // ---- an attempt ----

  ghost predicate ResultsOk(sys: Sys, id: TurnId, plan: ToolPlan, results: seq<CallResult>) {
    && |results| <= |plan|
    && forall j :: 0 <= j < |results| ==>
         Observed(sys, id, plan, j) && Reported(ViewOf(sys.gw, KeyAt(id, plan, j)), results[j])
  }

  /** A later call of the same attempt leaves the answers already given true. */
  lemma CallKeepsResults(sys: Sys, id: TurnId, plan: ToolPlan, i: nat, fuel: nat, results: seq<CallResult>)
    requires ResultsOk(sys, id, plan, results) && |results| == i < |plan|
    ensures ResultsOk(sys.(gw := Call(sys.gw, KeyAt(id, plan, i), plan[i], fuel).gw), id, plan, results)
  {
    forall j | 0 <= j < i
      ensures ViewOf(Call(sys.gw, KeyAt(id, plan, i), plan[i], fuel).gw, KeyAt(id, plan, j)) ==
          ViewOf(sys.gw, KeyAt(id, plan, j))
    {
      CallFrames(sys.gw, KeyAt(id, plan, i), plan[i], fuel, KeyAt(id, plan, j));
    }
    var sys' := sys.(gw := Call(sys.gw, KeyAt(id, plan, i), plan[i], fuel).gw);
    assert forall j :: Observed(sys', id, plan, j) == Observed(sys, id, plan, j);
  }

  lemma AppendKeepsResults(sys: Sys, id: TurnId, plan: ToolPlan, rec: Rec, results: seq<CallResult>)
    requires ResultsOk(sys, id, plan, results)
    ensures ResultsOk(Append(sys, id, rec), id, plan, results)
  {
    hide ViewOf, Reported;
    forall j | 0 <= j < |results| ensures Observed(Append(sys, id, rec), id, plan, j) {
      AppendObserved(sys, id, rec, id, plan, j);
    }
  }

  ghost predicate Completed(sys: Sys, id: TurnId, plan: ToolPlan, results: seq<CallResult>) {
    ResultsOk(sys, id, plan, results) && |results| == |plan| && TurnCommitted in Records(sys.wal, id)
  }

  /** An attempt that has begun its turn and observed as many actions of its plan as it has results. */
  ghost predicate Running(offers: Offers, sys: Sys, id: TurnId, plan: ToolPlan, results: seq<CallResult>) {
    && Inv(offers, sys) && Offered(offers, id, plan) && Records(sys.wal, id) != []
    && ResultsOk(sys, id, plan, results)
  }

  lemma BeginRuns(offers: Offers, sys: Sys, id: TurnId, plan: ToolPlan)
    requires Inv(offers, sys) && Offered(offers, id, plan)
    ensures BeginTurn in Records(sys.wal, id) ==> Running(offers, sys, id, plan, [])
    ensures BeginTurn !in Records(sys.wal, id) ==> Running(offers, Append(sys, id, BeginTurn), id, plan, [])
  {
    assert LogOk(offers, Records(sys.wal, id), id);
    if BeginTurn !in Records(sys.wal, id) {
      AppendKeepsInv(offers, sys, id, BeginTurn);
      AppendRecords(sys, id, BeginTurn, id);
    }
  }

  lemma PrepareRuns(offers: Offers, sys: Sys, id: TurnId, plan: ToolPlan, tool: Tool, results: seq<CallResult>)
    requires Running(offers, sys, id, plan, results)
    ensures Running(offers, Append(sys, id, ActionPrepared(tool)), id, plan, results)
  {
    hide ResultsOk, Records;
    AppendKeepsInv(offers, sys, id, ActionPrepared(tool));
    AppendRecords(sys, id, ActionPrepared(tool), id);
    AppendKeepsResults(sys, id, plan, ActionPrepared(tool), results);
    hide Inv;
  }

  /** The state after a call of action `i`. */
  function Called(sys: Sys, id: TurnId, plan: ToolPlan, i: nat, fuel: nat): Sys
    requires i < |plan|
  {
    sys.(gw := Call(sys.gw, KeyAt(id, plan, i), plan[i], fuel).gw)
  }

  lemma CallRuns(offers: Offers, sys: Sys, id: TurnId, plan: ToolPlan, fuel: nat, results: seq<CallResult>)
    requires Running(offers, sys, id, plan, results) && |results| < |plan|
    ensures var i := |results|;
            var key := KeyAt(id, plan, i);
            var r := Call(sys.gw, key, plan[i], fuel);
            && Running(offers, Called(sys, id, plan, i, fuel), id, plan, results)
            && (r.Returned? ==> !r.result.ContentMismatch? && Answered(ViewOf(r.gw, key), key, plan[i])
                                && Reported(ViewOf(r.gw, key), r.result))
  {
    hide Call, ViewOf, Answered, Reported, Records;
    CallKeepsInv(offers, sys, id, plan, |results|, fuel);
    CallKeepsResults(sys, id, plan, |results|, fuel, results);
    hide Inv, ResultsOk;
  }

  lemma ObserveRuns(offers: Offers, sys: Sys, id: TurnId, plan: ToolPlan, results: seq<CallResult>, result: CallResult)
    requires Running(offers, sys, id, plan, results) && |results| < |plan|
    requires var key := KeyAt(id, plan, |results|);
             Answered(ViewOf(sys.gw, key), key, plan[|results|]) && Reported(ViewOf(sys.gw, key), result)
    ensures Running(offers, Append(sys, id, ObservationCommitted(KeyAt(id, plan, |results|))), id, plan,
                    results + [result])
  {
    hide ViewOf, Answered, Reported, Records;
    var i := |results|;
    var key := KeyAt(id, plan, i);
    assert MayObserve(sys, id, plan, i);
    assert IsActionOf(offers, key, id);
    AppendKeepsInv(offers, sys, id, ObservationCommitted(key));
    hide Inv;
    AppendRecords(sys, id, ObservationCommitted(key), id);
    AppendKeepsResults(sys, id, plan, ObservationCommitted(key), results);
    AppendObserved(sys, id, ObservationCommitted(key), id, plan, i);
    hide Observed, KeyAt;
  }

  lemma CommitRuns(offers: Offers, sys: Sys, id: TurnId, plan: ToolPlan, results: seq<CallResult>)
    requires Running(offers, sys, id, plan, results) && |results| == |plan|
    ensures TurnCommitted in Records(sys.wal, id) ==> Completed(sys, id, plan, results)
    ensures TurnCommitted !in Records(sys.wal, id) ==>
              Running(offers, Append(sys, id, TurnCommitted), id, plan, results)
              && Completed(Append(sys, id, TurnCommitted), id, plan, results)
  {
    if TurnCommitted !in Records(sys.wal, id) {
      assert ObservedIn(Records(sys.wal, id), id, plan) by {
        assert forall j :: 0 <= j < |plan| ==> Observed(sys, id, plan, j);
      }
      hide ResultsOk, Records;
      assert SomePlanObserved(offers, Records(sys.wal, id), id);
      AppendKeepsInv(offers, sys, id, TurnCommitted);
      hide Inv;
      AppendRecords(sys, id, TurnCommitted, id);
      AppendKeepsResults(sys, id, plan, TurnCommitted, results);
    }
  }

  lemma {:induction false} RunFromKeepsInv(offers: Offers, sys: Sys, id: TurnId, plan: ToolPlan, fuel: nat,
                                           results: seq<CallResult>)
    requires Running(offers, sys, id, plan, results)
    ensures var r := RunFrom(sys, id, plan, |results|, fuel, results);
            && Inv(offers, r.sys) && !r.Raised?
            && (r.Finished? ==> Completed(r.sys, id, plan, r.results))
    decreases |plan| - |results|
  {
    hide Call, Inv, Completed, Answered, Reported, ViewOf;
    var i := |results|;
    if i == |plan| {
      CommitRuns(offers, sys, id, plan, results);
    } else if fuel > 0 {
      var prepared := Append(sys, id, ActionPrepared(plan[i].tool));
      PrepareRuns(offers, sys, id, plan, plan[i].tool, results);
      CallRuns(offers, prepared, id, plan, fuel - 1, results);
      var r := Call(prepared.gw, KeyAt(id, plan, i), plan[i], fuel - 1);
      if r.Returned? && r.fuel > 0 {
        var called := Called(prepared, id, plan, i, fuel - 1);
        ObserveRuns(offers, called, id, plan, results, r.result);
        var observed := Append(called, id, ObservationCommitted(KeyAt(id, plan, i)));
        hide Running;
        RunFromKeepsInv(offers, observed, id, plan, r.fuel - 1, results + [r.result]);
      }
    }
  }

  /** One attempt, cut anywhere. */
  lemma RunTurnKeepsInv(offers: Offers, sys: Sys, id: TurnId, plan: ToolPlan, fuel: nat)
    requires Inv(offers, sys) && Offered(offers, id, plan)
    ensures var r := RunTurn(sys, id, plan, fuel);
            && Inv(offers, r.sys) && !r.Raised?
            && (r.Finished? ==> Completed(r.sys, id, plan, r.results))
  {
    hide Call, Inv, Completed;
    BeginRuns(offers, sys, id, plan);
    if BeginTurn in Records(sys.wal, id) {
      RunFromKeepsInv(offers, sys, id, plan, fuel, []);
    } else if fuel > 0 {
      RunFromKeepsInv(offers, Append(sys, id, BeginTurn), id, plan, fuel - 1, []);
    }
  }

  lemma {:induction false} AttemptsKeepInv(offers: Offers, sys: Sys, history: seq<Attempt>)
    requires Inv(offers, sys)
    ensures Inv(offers, Attempts(offers, sys, history))
    decreases |history|
  {
    if history != [] {
      hide Inv, RunTurn;
      var a := history[0];
      if Offered(offers, a.id, a.plan) {
        RunTurnKeepsInv(offers, sys, a.id, a.plan, a.fuel);
      }
      AttemptsKeepInv(offers, Try(offers, sys, a), history[1..]);
    }
  }

  lemma ReachableInv(offers: Offers, history: seq<Attempt>)
    ensures Inv(offers, Attempts(offers, EMPTY, history))
  {
    AttemptsKeepInv(offers, EMPTY, history);
  }

  // ---- what it guarantees ----

  /** The classes whose calls always end committed. */
  predicate IsRepeatable(tool: Tool) {
    !ClassOf(tool).Compensatable? && !ClassOf(tool).Irreversible?
  }

  /** THE LOG, after any history of crashed and finished attempts, with one plan per turn or several: BEGIN_TURN first
      and once; observed actions form a prefix of each plan, each answered by the gateway, and settled as committed
      unless its class is compensatable or irreversible; only actions of plans brought to the turn are observed;
      TURN_COMMITTED at most once and only after an observation of every action of one such plan. */
  lemma LogIsConsistent(offers: Offers, history: seq<Attempt>, id: TurnId, plan: ToolPlan)
    ensures var sys := Attempts(offers, EMPTY, history);
            && LogOk(offers, Records(sys.wal, id), id)
            && ObservationsOk(sys, id, plan)
            && forall i :: 0 <= i < |plan| && Observed(sys, id, plan, i) && IsRepeatable(plan[i].tool) ==>
                 var row := ViewOf(sys.gw, KeyAt(id, plan, i)).row;
                 row.Some? && row.value.status.Committed?
  {
    ReachableInv(offers, history);
    var sys := Attempts(offers, EMPTY, history);
    assert PlanOk(sys, id, plan) && LogOk(offers, Records(sys.wal, id), id);
    hide Inv, ViewOf, Records, Observed;
  }

  /** With one plan brought to a turn, TURN_COMMITTED means that its every action is observed. */
  lemma CommittedTurnOfOnePlan(offers: Offers, history: seq<Attempt>, id: TurnId, plan: ToolPlan)
    requires id in offers && offers[id] == {plan}
    requires TurnCommitted in Records(Attempts(offers, EMPTY, history).wal, id)
    ensures forall i :: 0 <= i < |plan| ==> Observed(Attempts(offers, EMPTY, history), id, plan, i)
  {
    ReachableInv(offers, history);
    var log := Records(Attempts(offers, EMPTY, history).wal, id);
    assert LogOk(offers, log, id);
    var p :| 0 <= p < |log| && log[p] == TurnCommitted;
    assert SomePlanObserved(offers, log[..p], id);
    hide Inv, LogOk, Records;
    forall i | 0 <= i < |plan| ensures Observed(Attempts(offers, EMPTY, history), id, plan, i) {
      assert ObservationCommitted(KeyAt(id, plan, i)) in log[..p];
    }
  }

  /** TURN_COMMITTED SPEAKS FOR ONE PLAN: when an attempt with the only plan brought to a turn so far has finished, the
      turn is marked committed, and a caller that comes with a plan finds it observed as a whole if and only if it is
      that one, or empty. */
  lemma CommitSpeaksForOnePlan(offers: Offers, history: seq<Attempt>, id: TurnId, plan: ToolPlan, fuel: nat,
                               again: ToolPlan)
    requires id in offers && offers[id] == {plan}
    requires RunTurn(Attempts(offers, EMPTY, history), id, plan, fuel).Finished?
    ensures var log := Records(RunTurn(Attempts(offers, EMPTY, history), id, plan, fuel).sys.wal, id);
            && TurnCommitted in log
            && (ObservedIn(log, id, again) <==> again == plan || again == [])
  {
    ReachableInv(offers, history);
    RunTurnKeepsInv(offers, Attempts(offers, EMPTY, history), id, plan, fuel);
    var sys := RunTurn(Attempts(offers, EMPTY, history), id, plan, fuel).sys;
    var log := Records(sys.wal, id);
    assert LogOk(offers, log, id);
    hide Inv, RunTurn, Records, ViewOf, Reported;
    assert forall i :: 0 <= i < |plan| ==> Observed(sys, id, plan, i);
    if again != [] && ObservedIn(log, id, again) {
      assert ObservationCommitted(KeyAt(id, again, 0)) in log;
      assert IsActionOf(offers, KeyAt(id, again, 0), id);
    }
  }

  /** AT MOST ONCE, always and for every plan: no tool of any class has taken effect twice for one action, whatever was
      cut and re-run, and the service's ledger counts the distinct keys it has served. */
  lemma AtMostOnce(offers: Offers, history: seq<Attempt>, id: TurnId, plan: ToolPlan, i: nat)
    requires i < |plan|
    ensures var gw := Attempts(offers, EMPTY, history).gw;
            var key, item := KeyAt(id, plan, i), plan[i];
            var v := ViewOf(gw, key);
            && KeyOk(v, key, item)
            && (EffectNever(v, item) || EffectOnce(v, key, item))
            && ServiceOk(gw.service)
  {
    ReachableInv(offers, history);
    assert PlanOk(Attempts(offers, EMPTY, history), id, plan);
    hide Inv, ViewOf;
  }

  /** EXACTLY ONCE: when an attempt finishes, after any history, every action of its plan is answered; each one of
      a transactional, overlay or idempotent tool has taken effect exactly once with its result
      recorded, identical calls at different positions each on their own account; a compensatable one
      is committed or compensated; only an irreversible one may be left uncertain. */
  lemma FinishedMeansExactlyOnce(offers: Offers, history: seq<Attempt>, id: TurnId, plan: ToolPlan, fuel: nat, i: nat)
    requires Offered(offers, id, plan) && i < |plan|
    requires RunTurn(Attempts(offers, EMPTY, history), id, plan, fuel).Finished?
    ensures var r := RunTurn(Attempts(offers, EMPTY, history), id, plan, fuel);
            var key, item := KeyAt(id, plan, i), plan[i];
            var v := ViewOf(r.sys.gw, key);
            && |r.results| == |plan|
            && Answered(v, key, item) && Reported(v, r.results[i])
            && (!ClassOf(item.tool).Irreversible? ==> Settled(v, key, item))
            && (IsRepeatable(item.tool) ==>
                  && EffectOnce(v, key, item)
                  && (r.results[i].Done? || r.results[i].DedupHit?)
                  && ResultOk(v, key, item, r.results[i].value))
            && (r.results[i].Done? || r.results[i].DedupHit? ==> EffectOnce(v, key, item))
  {
    ReachableInv(offers, history);
    RunTurnKeepsInv(offers, Attempts(offers, EMPTY, history), id, plan, fuel);
    var sys := RunTurn(Attempts(offers, EMPTY, history), id, plan, fuel).sys;
    assert PlanOk(sys, id, plan);
    assert Observed(sys, id, plan, i);
    hide Inv, RunTurn, Attempts, ViewOf, Records;
  }

  // ---- a clean attempt finishes ----

  lemma CallNeedsAtMostFour(gw: Gw, key: Key, item: Item, fuel: nat)
    requires fuel >= 4
    ensures var r := Call(gw, key, item, fuel); r.Returned? && r.fuel >= fuel - 4
  {
    hide Record, Post, ChargeTx, WriteTmp, Rename;
  }

  lemma {:induction false} EnoughFuel(sys: Sys, id: TurnId, plan: ToolPlan, i: nat, fuel: nat, results: seq<CallResult>)
    requires i <= |plan| && fuel >= 1 + 6 * (|plan| - i)
    ensures !RunFrom(sys, id, plan, i, fuel, results).Crashed?
    decreases |plan| - i
  {
    hide Call, Records;
    if i < |plan| {
      var prepared := Append(sys, id, ActionPrepared(plan[i].tool));
      CallNeedsAtMostFour(prepared.gw, KeyAt(id, plan, i), plan[i], fuel - 1);
      var r := Call(prepared.gw, KeyAt(id, plan, i), plan[i], fuel - 1);
      var observed := Append(prepared.(gw := r.gw), id, ObservationCommitted(KeyAt(id, plan, i)));
      EnoughFuel(observed, id, plan, i + 1, r.fuel - 1, results + [r.result]);
    }
  }

  /** RECOVERY COMPLETES: after any history, an attempt that is not cut within six durable operations per
      action and two more finishes; the gateway never raises and no state is stuck. */
  lemma CleanAttemptFinishes(offers: Offers, history: seq<Attempt>, id: TurnId, plan: ToolPlan, fuel: nat)
    requires Offered(offers, id, plan) && fuel >= 2 + 6 * |plan|
    ensures RunTurn(Attempts(offers, EMPTY, history), id, plan, fuel).Finished?
  {
    hide Inv, Completed, RunFrom, Records, Attempts;
    var sys := Attempts(offers, EMPTY, history);
    ReachableInv(offers, history);
    RunTurnKeepsInv(offers, sys, id, plan, fuel);
    EnoughFuel(sys, id, plan, 0, fuel, []);
    EnoughFuel(Append(sys, id, BeginTurn), id, plan, 0, fuel - 1, []);
  }

  // ---- answers are final ----

  /** An action as the gateway sees it: consistent and answered. */
  ghost predicate IsAnswered(sys: Sys, id: TurnId, plan: ToolPlan, i: nat)
    requires i < |plan|
  {
    var key := KeyAt(id, plan, i);
    KeyOk(ViewOf(sys.gw, key), key, plan[i]) && Answered(ViewOf(sys.gw, key), key, plan[i])
  }

  lemma {:induction false} RunFromKeepsAnswer(sys: Sys, id: TurnId, plan: ToolPlan, i: nat, fuel: nat,
                                              results: seq<CallResult>, other: TurnId, plan': ToolPlan, j: nat)
    requires i <= |plan| && j < |plan'| && IsAnswered(sys, other, plan', j)
    ensures var key := KeyAt(other, plan', j);
            ViewOf(RunFrom(sys, id, plan, i, fuel, results).sys.gw, key) == ViewOf(sys.gw, key)
    decreases |plan| - i
  {
    hide Call, KeyOk, Answered, ViewOf, Records;
    if i < |plan| && fuel > 0 {
      var prepared := Append(sys, id, ActionPrepared(plan[i].tool));
      var mine, key := KeyAt(id, plan, i), KeyAt(other, plan', j);
      var r := Call(prepared.gw, mine, plan[i], fuel - 1);
      if mine == key {
        AnsweredIsFinal(prepared.gw, mine, plan[i], fuel - 1);
      } else {
        CallFrames(prepared.gw, mine, plan[i], fuel - 1, key);
      }
      if r.Returned? && !r.result.ContentMismatch? && r.fuel > 0 {
        var observed := Append(prepared.(gw := r.gw), id, ObservationCommitted(mine));
        RunFromKeepsAnswer(observed, id, plan, i + 1, r.fuel - 1, results + [r.result], other, plan', j);
      }
    }
  }

  lemma RunTurnKeepsAnswer(sys: Sys, id: TurnId, plan: ToolPlan, fuel: nat, other: TurnId, plan': ToolPlan, j: nat)
    requires j < |plan'| && IsAnswered(sys, other, plan', j)
    ensures var key := KeyAt(other, plan', j);
            ViewOf(RunTurn(sys, id, plan, fuel).sys.gw, key) == ViewOf(sys.gw, key)
  {
    hide RunFrom, KeyOk, Answered, ViewOf, Records;
    RunFromKeepsAnswer(sys, id, plan, 0, fuel, [], other, plan', j);
    if fuel > 0 {
      RunFromKeepsAnswer(Append(sys, id, BeginTurn), id, plan, 0, fuel - 1, [], other, plan', j);
    }
  }

  lemma {:induction false} AttemptsKeepAnswer(offers: Offers, sys: Sys, more: seq<Attempt>, id: TurnId, plan: ToolPlan,
                                              i: nat)
    requires i < |plan| && IsAnswered(sys, id, plan, i)
    ensures var key := KeyAt(id, plan, i);
            ViewOf(Attempts(offers, sys, more).gw, key) == ViewOf(sys.gw, key)
    decreases |more|
  {
    if more != [] {
      hide RunTurn, KeyOk, Answered, ViewOf;
      var a := more[0];
      RunTurnKeepsAnswer(sys, a.id, a.plan, a.fuel, id, plan, i);
      AttemptsKeepAnswer(offers, Try(offers, sys, a), more[1..], id, plan, i);
    }
  }

  /** FINAL FOREVER: once an action is answered, committed, compensated or uncertain alike, no further
      history of attempts at any turns with any plans changes its row, its effects or its compensations. */
  lemma AnswersAreFinal(offers: Offers, history: seq<Attempt>, more: seq<Attempt>, id: TurnId, plan: ToolPlan, i: nat)
    requires i < |plan|
    requires var key := KeyAt(id, plan, i);
             Answered(ViewOf(Attempts(offers, EMPTY, history).gw, key), key, plan[i])
    ensures var sys := Attempts(offers, EMPTY, history);
            ViewOf(Attempts(offers, sys, more).gw, KeyAt(id, plan, i)) == ViewOf(sys.gw, KeyAt(id, plan, i))
  {
    hide Answered, ViewOf;
    AtMostOnce(offers, history, id, plan, i);
    AttemptsKeepAnswer(offers, Attempts(offers, EMPTY, history), more, id, plan, i);
  }

  /** THE AMBIGUOUS CLASSES in plain counts, after any history: an irreversible tool has fired at most once,
      exactly once if committed; a saga has fired at most once, ends committed with one effect and no
      compensation or compensated with at least one, and is never compensated while merely prepared. */
  lemma AmbiguousClasses(offers: Offers, history: seq<Attempt>, id: TurnId, plan: ToolPlan, i: nat)
    requires i < |plan|
    ensures var v := ViewOf(Attempts(offers, EMPTY, history).gw, KeyAt(id, plan, i));
            && |v.mails| <= 1 && v.sagas <= 1
            && (v.row.Some? && v.row.value.status.Committed? ==> v.compensations == 0)
            && (plan[i].tool.Email? && v.row.Some? && v.row.value.status.Committed? ==> |v.mails| == 1)
            && (plan[i].tool.Email? && v.row.None? ==> v.mails == [])
            && (plan[i].tool.Saga? && v.row.Some? && v.row.value.status.Committed? ==> v.sagas == 1)
            && (v.row.Some? && v.row.value.status.Compensated? ==> v.compensations >= 1)
            && (plan[i].tool.Saga? && v.row.Some? && v.row.value.status.Prepared? ==>
                v.sagas == 0 && v.compensations == 0)
  {
    AtMostOnce(offers, history, id, plan, i);
    hide ViewOf, Attempts;
  }
}
