/** The objects behind the gateway model: the external service and the gateway, updated in place. */
module GatewayObjects {
  import opened Identity
  import opened Gateway
  import AttemptScript

  class MockService {
    var ledger: nat
    var seen: map<Key, nat>

    function Contents(): Service
      reads this
    {
      Service(ledger, seen)
    }

    constructor ()
      ensures Contents() == Service(0, map[])
    {
      ledger, seen := 0, map[];
    }

    /** POST /charge: a repeated key gets the cached answer and no effect. */
    method DoPost(key: Key) returns (n: nat)
      modifies this
      ensures (Contents(), n) == Post(old(Contents()), key)
      ensures key in old(seen) ==> n == old(seen)[key] && ledger == old(ledger) && seen == old(seen)
      ensures key !in old(seen) ==> n == ledger == old(ledger) + 1 && seen == old(seen)[key := n]
    {
      if key in seen {
        return seen[key];
      }
      ledger := ledger + 1;
      n := ledger;
      seen := seen[key := n];
    }
  }

  /** What a method that may die hands back: nothing, or the fuel left and its result. */
  function Outcome<R>(gw: Gw, r: Option<(nat, R)>): Run<R> {
    if r.None? then Died(gw) else Returned(gw, r.value.0, r.value.1)
  }

  class ToolGateway {
    const service: MockService
    var keys: map<Key, KeyRow>
    var charges: seq<ChargeRow>
    var committedDir: map<Key, string>
    var overlayDir: map<Key, string>
    var mails: seq<MailRow>
    var sagas: seq<Key>
    var compensations: seq<Key>

    function Contents(): Gw
      reads this, service
    {
      Gw(keys, charges, committedDir, overlayDir, service.Contents(), mails, sagas, compensations)
    }

    constructor (service: MockService)
      ensures this.service == service
      ensures Contents() == Gw(map[], [], map[], map[], service.Contents(), [], [], [])
    {
      this.service := service;
      keys, charges, committedDir, overlayDir, mails, sagas, compensations := map[], [], map[], map[], [], [], [];
    }

    method RecordRow(key: Key, item: Item, status: Status, result: Option<Value>)
      modifies this`keys
      ensures Contents() == Record(old(Contents()), key, item, status, result)
      ensures key in keys && keys[key].status == status && keys[key].result == result
      ensures key in old(keys) ==> keys[key].argsFp == old(keys)[key].argsFp && keys[key].klass == old(keys)[key].klass
      ensures key !in old(keys) ==>
                keys[key].argsFp == FingerprintOf(item.args) && keys[key].klass == ClassOf(item.tool)
      ensures forall k :: k != key ==> Lookup(keys, k) == Lookup(old(keys), k)
    {
      if key in keys {
        keys := keys[key := keys[key].(status := status, result := result)];
      } else {
        keys := keys[key := KeyRow(FingerprintOf(item.args), status, ClassOf(item.tool), result)];
      }
    }

    method RunEffect(key: Key, item: Item, fuel: nat) returns (r: Option<(nat, Value)>)
      modifies this`committedDir, this`overlayDir, this`mails, this`sagas, service
      ensures Outcome(Contents(), r) == Effect(old(Contents()), key, item, fuel)
    {
      match item.tool
      case PureTool =>
        r := Some((fuel, Looked(item.args)));
      case HttpCharge =>
        if fuel == 0 {
          return None;
        }
        var n := service.DoPost(key);
        r := Some((fuel - 1, Served(n)));
      case Receipt =>
        if key in committedDir {
          return Some((fuel, Path(key)));
        }
        if fuel == 0 {
          return None;
        }
        overlayDir := overlayDir[key := ReceiptText(item.args)];
        if fuel == 1 {
          return None;
        }
        committedDir, overlayDir := committedDir[key := overlayDir[key]], overlayDir - {key};
        r := Some((fuel - 2, Path(key)));
      case Saga =>
        if fuel == 0 {
          return None;
        }
        sagas := sagas + [key];
        r := Some((fuel - 1, SagaDone));
      case Email =>
        if fuel == 0 {
          return None;
        }
        r := Some((fuel - 1, Sent(|mails|)));
        mails := mails + [MailRow(key, item.args.to)];
      case Charge =>
        r := Some((fuel, Charged(item.args.order)));
    }

    method EffectAndRecord(key: Key, item: Item, fuel: nat) returns (r: Option<(nat, CallResult)>)
      modifies this, service
      ensures Outcome(Contents(), r) == EffectThenRecord(old(Contents()), key, item, fuel)
    {
      var effect := RunEffect(key, item, fuel);
      if effect.None? || effect.value.0 == 0 {
        return None;
      }
      var (left, value) := effect.value;
      RecordRow(key, item, Committed, Some(value));
      r := Some((left - 1, Done(Some(value))));
    }

    method Perform(key: Key, item: Item, fuel: nat) returns (r: Option<(nat, CallResult)>)
      modifies this, service
      ensures Outcome(Contents(), r) == Execute(old(Contents()), key, item, fuel)
    {
      match ClassOf(item.tool)
      case Transactional =>
        if fuel == 0 {
          return None;
        }
        charges := charges + [ChargeRow(key, item.args.order, item.args.amount)];
        RecordRow(key, item, Committed, Some(Charged(item.args.order)));
        r := Some((fuel - 1, Done(Some(Charged(item.args.order)))));
      case Compensatable =>
        if fuel == 0 {
          return None;
        }
        RecordRow(key, item, Prepared, None);
        if fuel == 1 {
          return None;
        }
        RecordRow(key, item, EffectStarted, None);
        r := EffectAndRecord(key, item, fuel - 2);
      case Irreversible =>
        if fuel == 0 {
          return None;
        }
        RecordRow(key, item, Prepared, None);
        r := EffectAndRecord(key, item, fuel - 1);
      case _ =>
        r := EffectAndRecord(key, item, fuel);
    }

    method CallTool(key: Key, item: Item, fuel: nat) returns (r: Option<(nat, CallResult)>)
      modifies this, service
      ensures Outcome(Contents(), r) == Call(old(Contents()), key, item, fuel)
      ensures AttemptScript.RunsScript(old(Contents()), key, item, fuel, Outcome(Contents(), r))
      ensures r.Some? && r.value.1.ContentMismatch? <==> key in old(keys) && old(keys)[key].argsFp.args != item.args
      ensures key in old(keys) && old(keys)[key].argsFp.args != item.args ==>
                Contents() == old(Contents()) && r.Some? && r.value.0 == fuel
      ensures r.Some? && r.value.1.DedupHit? <==>
                key in old(keys) && old(keys)[key].argsFp.args == item.args && old(keys)[key].status.Committed?
      ensures r.Some? && r.value.1.DedupHit? ==>
                Contents() == old(Contents()) && r == Some((fuel, DedupHit(old(keys)[key].result)))
    {
      AttemptScript.CallIsScript(Contents(), key, item, fuel);
      hide AttemptScript.CallActs, AttemptScript.PerformSome;
      if key in keys {
        var row := keys[key];
        if row.argsFp != FingerprintOf(item.args) {
          return Some((fuel, ContentMismatch));
        }
        if row.status.Committed? {
          return Some((fuel, DedupHit(row.result)));
        }
        if row.status.Compensated? {
          return Some((fuel, CompensatedResult));
        }
        if ClassOf(item.tool).Irreversible? {
          return Some((fuel, Uncertain));
        }
        if ClassOf(item.tool).Compensatable? && row.status.EffectStarted? {
          if fuel == 0 {
            return None;
          }
          compensations := compensations + [key];
          if fuel == 1 {
            return None;
          }
          RecordRow(key, item, Compensated, None);
          return Some((fuel - 2, CompensatedResult));
        }
      }
      r := Perform(key, item, fuel);
    }
  }
}
