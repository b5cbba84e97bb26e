/** The objects of the single-owner coordinator: the log and the coordinator, updated in place. */
module CoordinatorObjects {
  import opened Identity
  import opened Gateway
  import opened GatewayObjects
  import opened TurnRun
  import AttemptScript

  class TurnWAL {
    var rows: seq<WalRow>

    constructor ()
      ensures rows == []
    {
      rows := [];
    }

    method AppendRow(id: TurnId, rec: Rec)
      modifies this
      ensures rows == old(rows) + [WalRow(id, rec)]
    {
      rows := rows + [WalRow(id, rec)];
    }

    method Has(id: TurnId, rec: Rec) returns (found: bool)
      ensures found <==> WalRow(id, rec) in rows
      ensures found <==> rec in Records(rows, id)
    {
      RecordsHold(rows, id, rec);
      found := WalRow(id, rec) in rows;
    }
  }

  datatype Ending = Cut | Mismatch | Ended(results: seq<CallResult>)

  function RunResultOf(sys: Sys, e: Ending): RunResult {
    match e
    case Cut => Crashed(sys)
    case Mismatch => Raised(sys)
    case Ended(results) => Finished(sys, results)
  }

  class Coordinator {
    const wal: TurnWAL
    const gateway: ToolGateway

    constructor (service: MockService)
      ensures fresh(wal) && fresh(gateway) && gateway.service == service
      ensures Contents() == Sys([], Gw(map[], [], map[], map[], service.Contents(), [], [], []))
    {
      wal := new TurnWAL();
      gateway := new ToolGateway(service);
    }

    function Contents(): Sys
      reads wal, gateway, gateway.service
    {
      Sys(wal.rows, gateway.Contents())
    }

    method Prepare(id: TurnId, rec: Rec)
      modifies wal
      ensures Contents() == Append(old(Contents()), id, rec)
    {
      wal.AppendRow(id, rec);
    }

    method CallAt(id: TurnId, plan: ToolPlan, i: nat, fuel: nat) returns (r: Option<(nat, CallResult)>)
      requires i < |plan|
      modifies gateway, gateway.service
      ensures Contents().wal == old(Contents().wal)
      ensures Outcome(Contents().gw, r) == Call(old(Contents().gw), KeyAt(id, plan, i), plan[i], fuel)
    {
      r := gateway.CallTool(KeyAt(id, plan, i), plan[i], fuel);
    }

    /** Running a turn and recovering it are the same method. */
    method Run(id: TurnId, plan: ToolPlan, fuel: nat) returns (e: Ending)
      modifies wal, gateway, gateway.service
      ensures RunResultOf(Contents(), e) == RunTurn(old(Contents()), id, plan, fuel)
      ensures var ops := AttemptScript.AttemptOps(old(Contents()), id, plan);
              Contents() == AttemptScript.Replay(old(Contents()), id, ops, fuel) && (e.Cut? <==> fuel < |ops|)
    {
      AttemptScript.AttemptIsScript(Contents(), id, plan, fuel);
      hide Call, Records, AttemptScript.AttemptOps, AttemptScript.Replay, AttemptScript.SomeMismatch,
           AttemptScript.Answers;
      var left := fuel;
      var begun := wal.Has(id, BeginTurn);
      if !begun {
        if left == 0 {
          return Cut;
        }
        Prepare(id, BeginTurn);
        left := left - 1;
      }
      var results := [];
      var i := 0;
      while i < |plan|
        invariant 0 <= i <= |plan|
        invariant RunFrom(Contents(), id, plan, i, left, results) == RunTurn(old(Contents()), id, plan, fuel)
      {
        if left == 0 {
          return Cut;
        }
        Prepare(id, ActionPrepared(plan[i].tool));
        var r := CallAt(id, plan, i, left - 1);
        if r.None? {
          return Cut;
        }
        var (rest, result) := r.value;
        if result.ContentMismatch? {
          return Mismatch;
        }
        if rest == 0 {
          return Cut;
        }
        Prepare(id, ObservationCommitted(KeyAt(id, plan, i)));
        results := results + [result];
        left := rest - 1;
        i := i + 1;
      }
      var done := wal.Has(id, TurnCommitted);
      if !done {
        if left == 0 {
          return Cut;
        }
        Prepare(id, TurnCommitted);
      }
      return Ended(results);
    }
  }
}
