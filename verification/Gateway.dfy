/** The single-owner tool gateway: six tool classes, each with its own way of surviving a crash.

    Every durable operation consumes one unit of `fuel`; when none is left the process dies before the
    operation.  The crash points of the program's clock, and the gaps it does not tick in, are all
    "after so many durable operations", so a statement about every fuel covers every crash point. */
module Gateway {
  import opened Identity

  datatype ToolClass = Pure | Idempotent | Transactional | Overlay | Compensatable | Irreversible
  datatype Tool = PureTool | HttpCharge | Charge | Receipt | Saga | Email
  datatype Args = Args(order: string, amount: int, to: string)
  datatype Item = Item(tool: Tool, args: Args)
  datatype CommitId = CommitIdOf(plan: seq<Item>)
  datatype Fingerprint = FingerprintOf(args: Args)
  type Key = ActionId<CommitId>

  function ClassOf(tool: Tool): ToolClass {
    match tool
    case PureTool => Pure
    case HttpCharge => Idempotent
    case Charge => Transactional
    case Receipt => Overlay
    case Saga => Compensatable
    case Email => Irreversible
  }

  datatype Status = Prepared | EffectStarted | Committed | Compensated
  datatype Value =
    | Charged(order: string) | Path(key: Key) | Served(n: nat) | Sent(n: nat) | Looked(args: Args) | SagaDone
  datatype KeyRow = KeyRow(argsFp: Fingerprint, status: Status, klass: ToolClass, result: Option<Value>)

  /** Rows of the charges table and of the mail directory, tagged with the call that made them. */
  datatype ChargeRow = ChargeRow(key: Key, order: string, amount: int)
  datatype MailRow = MailRow(key: Key, to: string)

  /** The external service: its counter, and its cache of answers by idempotency key. */
  datatype Service = Service(ledger: nat, seen: map<Key, nat>)

  /** Everything durable: the gateway's own table and what its tools act on. */
  datatype Gw = Gw(keys: map<Key, KeyRow>, charges: seq<ChargeRow>, committed: map<Key, string>,
                   overlay: map<Key, string>, service: Service, mails: seq<MailRow>,
                   sagas: seq<Key>, compensations: seq<Key>)

  datatype CallResult =
    | Done(value: Option<Value>)       // status "committed"
    | DedupHit(value: Option<Value>)
    | Uncertain
    | CompensatedResult
    | ContentMismatch                  // raised

  datatype Run<+R> = Died(gw: Gw) | Returned(gw: Gw, fuel: nat, result: R)

  // ---- durable operations ----

  function Record(gw: Gw, key: Key, item: Item, status: Status, result: Option<Value>): Gw {
    var row :=
      if key in gw.keys then gw.keys[key].(status := status, result := result)
      else KeyRow(FingerprintOf(item.args), status, ClassOf(item.tool), result);
    gw.(keys := gw.keys[key := row])
  }

  function ChargeTx(gw: Gw, key: Key, item: Item): Gw {
    Record(gw.(charges := gw.charges + [ChargeRow(key, item.args.order, item.args.amount)]),
           key, item, Committed, Some(Charged(item.args.order)))
  }

  function ReceiptText(args: Args): string {
    args.order + "\n"
  }

  function WriteTmp(gw: Gw, key: Key, item: Item): Gw {
    gw.(overlay := gw.overlay[key := ReceiptText(item.args)])
  }

  function Rename(gw: Gw, key: Key): Gw
    requires key in gw.overlay
  {
    gw.(committed := gw.committed[key := gw.overlay[key]], overlay := gw.overlay - {key})
  }

  /** POST /charge with an idempotency key. */
  function Post(service: Service, key: Key): (Service, nat) {
    if key in service.seen then (service, service.seen[key])
    else (Service(service.ledger + 1, service.seen[key := service.ledger + 1]), service.ledger + 1)
  }

  // ---- one call ----

  function Effect(gw: Gw, key: Key, item: Item, fuel: nat): Run<Value> {
    match item.tool
    case PureTool => Returned(gw, fuel, Looked(item.args))
    case HttpCharge =>
      if fuel == 0 then Died(gw)
      else
        var (service, n) := Post(gw.service, key);
        Returned(gw.(service := service), fuel - 1, Served(n))
    case Receipt =>
      if key in gw.committed then Returned(gw, fuel, Path(key))
      else if fuel == 0 then Died(gw)
      else if fuel == 1 then Died(WriteTmp(gw, key, item))
      else Returned(Rename(WriteTmp(gw, key, item), key), fuel - 2, Path(key))
    case Saga =>
      if fuel == 0 then Died(gw) else Returned(gw.(sagas := gw.sagas + [key]), fuel - 1, SagaDone)
    case Email =>
      if fuel == 0 then Died(gw)
      else Returned(gw.(mails := gw.mails + [MailRow(key, item.args.to)]), fuel - 1, Sent(|gw.mails|))
    case Charge => Returned(gw, fuel, Charged(item.args.order))
  }

  /** The effect, then the record that it happened. */
  function EffectThenRecord(gw: Gw, key: Key, item: Item, fuel: nat): Run<CallResult> {
    match Effect(gw, key, item, fuel)
    case Died(gw') => Died(gw')
    case Returned(gw', left, value) =>
      if left == 0 then Died(gw')
      else Returned(Record(gw', key, item, Committed, Some(value)), left - 1, Done(Some(value)))
  }

  function Execute(gw: Gw, key: Key, item: Item, fuel: nat): Run<CallResult> {
    match ClassOf(item.tool)
    case Transactional =>
      if fuel == 0 then Died(gw)
      else Returned(ChargeTx(gw, key, item), fuel - 1, Done(Some(Charged(item.args.order))))
    case Overlay => EffectThenRecord(gw, key, item, fuel)
    case Idempotent => EffectThenRecord(gw, key, item, fuel)
    case Pure => EffectThenRecord(gw, key, item, fuel)
    case Compensatable =>
      if fuel == 0 then Died(gw)
      else if fuel == 1 then Died(Record(gw, key, item, Prepared, None))
      else
        var started := Record(Record(gw, key, item, Prepared, None), key, item, EffectStarted, None);
        EffectThenRecord(started, key, item, fuel - 2)
    case Irreversible =>
      if fuel == 0 then Died(gw)
      else EffectThenRecord(Record(gw, key, item, Prepared, None), key, item, fuel - 1)
  }

  function Compensate(gw: Gw, key: Key, item: Item, fuel: nat): Run<CallResult> {
    var undone := gw.(compensations := gw.compensations + [key]);
    if fuel == 0 then Died(gw)
    else if fuel == 1 then Died(undone)
    else Returned(Record(undone, key, item, Compensated, None), fuel - 2, CompensatedResult)
  }

  function Call(gw: Gw, key: Key, item: Item, fuel: nat): Run<CallResult> {
    if key !in gw.keys then Execute(gw, key, item, fuel)
    else
      var row := gw.keys[key];
      if row.argsFp != FingerprintOf(item.args) then Returned(gw, fuel, ContentMismatch)
      else if row.status.Committed? then Returned(gw, fuel, DedupHit(row.result))
      else if row.status.Compensated? then Returned(gw, fuel, CompensatedResult)
      else if ClassOf(item.tool).Irreversible? then Returned(gw, fuel, Uncertain)
      else if ClassOf(item.tool).Compensatable? && row.status.EffectStarted? then Compensate(gw, key, item, fuel)
      else Execute(gw, key, item, fuel)
  }

  // ---- what one call sees, and what it may find ----

  function CountKey(log: seq<Key>, key: Key): nat {
    if log == [] then 0 else CountKey(log[..|log| - 1], key) + if log[|log| - 1] == key then 1 else 0
  }

  function ChargesFor(rows: seq<ChargeRow>, key: Key): seq<ChargeRow> {
    if rows == [] then []
    else ChargesFor(rows[..|rows| - 1], key) + if rows[|rows| - 1].key == key then [rows[|rows| - 1]] else []
  }

  function MailsFor(rows: seq<MailRow>, key: Key): seq<MailRow> {
    if rows == [] then []
    else MailsFor(rows[..|rows| - 1], key) + if rows[|rows| - 1].key == key then [rows[|rows| - 1]] else []
  }

  function Lookup<V>(m: map<Key, V>, key: Key): Option<V> {
    if key in m then Some(m[key]) else None
  }

  /** The part of the durable state that concerns one key. */
  datatype View = View(row: Option<KeyRow>, charges: seq<ChargeRow>, receipt: Option<string>, tmp: Option<string>,
                       served: Option<nat>, mails: seq<MailRow>, sagas: nat, compensations: nat)

  function ViewOf(gw: Gw, key: Key): View {
    View(Lookup(gw.keys, key), ChargesFor(gw.charges, key), Lookup(gw.committed, key), Lookup(gw.overlay, key),
         Lookup(gw.service.seen, key), MailsFor(gw.mails, key),
         CountKey(gw.sagas, key), CountKey(gw.compensations, key))
  }

  /** Effects of classes that are not the item's own never happen under its key. */
  ghost predicate OnlyItsOwn(v: View, item: Item) {
    && (item.tool.Charge? || v.charges == [])
    && (item.tool.Receipt? || v.receipt == None)
    && (item.tool.HttpCharge? || v.served == None)
    && (item.tool.Email? || v.mails == [])
    && (item.tool.Saga? || (v.sagas == 0 && v.compensations == 0))
  }

  /** The effect of the item's class has happened exactly once, with the right content. */
  ghost predicate EffectOnce(v: View, key: Key, item: Item) {
    match item.tool
    case PureTool => true
    case HttpCharge => v.served.Some?
    case Charge => v.charges == [ChargeRow(key, item.args.order, item.args.amount)]
    case Receipt => v.receipt == Some(item.args.order + "\n")
    case Saga => v.sagas == 1
    case Email => v.mails == [MailRow(key, item.args.to)]
  }

  ghost predicate EffectNever(v: View, item: Item) {
    match item.tool
    case PureTool => true
    case HttpCharge => v.served == None
    case Charge => v.charges == []
    case Receipt => v.receipt == None
    case Saga => v.sagas == 0
    case Email => v.mails == []
  }

  ghost predicate ResultOk(v: View, key: Key, item: Item, result: Option<Value>) {
    match item.tool
    case PureTool => result == Some(Looked(item.args))
    case HttpCharge => v.served.Some? && result == Some(Served(v.served.value))
    case Charge => result == Some(Charged(item.args.order))
    case Receipt => result == Some(Path(key))
    case Saga => result == Some(SagaDone)
    case Email => result.Some? && result.value.Sent?
  }

  /** The state machine of one key, at every crash point. */
  ghost predicate KeyOk(v: View, key: Key, item: Item) {
    && OnlyItsOwn(v, item)
    && (v.row.Some? ==> v.row.value.argsFp == FingerprintOf(item.args) && v.row.value.klass == ClassOf(item.tool))
    && match ClassOf(item.tool)
       case Transactional =>
         if v.row.None? then EffectNever(v, item) else Settled(v, key, item)
       case Irreversible =>
         if v.row.None? then EffectNever(v, item)
         else if v.row.value.status.Prepared? then EffectNever(v, item) || EffectOnce(v, key, item)
         else Settled(v, key, item)
       case Compensatable =>
         if v.row.None? || v.row.value.status.Prepared? then EffectNever(v, item) && v.compensations == 0
         else if v.row.value.status.EffectStarted? then EffectNever(v, item) || EffectOnce(v, key, item)
         else Settled(v, key, item)
       case _ =>
         if v.row.None? then EffectNever(v, item) || EffectOnce(v, key, item) else Settled(v, key, item)
  }

  /** Nothing a later call does can change such a key. */
  ghost predicate Settled(v: View, key: Key, item: Item) {
    && v.row.Some?
    && (|| (v.row.value.status.Committed? && EffectOnce(v, key, item) && ResultOk(v, key, item, v.row.value.result)
              && v.compensations == 0)
        || (ClassOf(item.tool).Compensatable? && v.row.value.status.Compensated? && v.compensations >= 1
              && (EffectNever(v, item) || EffectOnce(v, key, item))))
  }

  /** An answered call: settled, or, for an irreversible tool only, surfaced as uncertain. */
  ghost predicate Answered(v: View, key: Key, item: Item) {
    || Settled(v, key, item)
    || (ClassOf(item.tool).Irreversible? && v.row.Some? && v.row.value.status.Prepared?)
  }

  ghost predicate ServiceOk(service: Service) {
    service.ledger == |service.seen|
  }

  // ---- what each durable operation changes in a view ----

  lemma RecordView(gw: Gw, key: Key, item: Item, status: Status, result: Option<Value>, k: Key)
    ensures var v := ViewOf(gw, k);
            ViewOf(Record(gw, key, item, status, result), k) ==
              if k != key then v
              else v.(row := Some(if v.row.Some? then v.row.value.(status := status, result := result)
                                  else KeyRow(FingerprintOf(item.args), status, ClassOf(item.tool), result)))
  {
  }

  lemma ChargeView(gw: Gw, key: Key, item: Item, k: Key)
    ensures var row := ChargeRow(key, item.args.order, item.args.amount);
            ViewOf(gw.(charges := gw.charges + [row]), k) ==
              if k == key then ViewOf(gw, k).(charges := ViewOf(gw, k).charges + [row]) else ViewOf(gw, k)
  {
    var row := ChargeRow(key, item.args.order, item.args.amount);
    assert (gw.charges + [row])[..|gw.charges|] == gw.charges;
    assert ChargesFor(gw.charges, k) + [] == ChargesFor(gw.charges, k);
  }

  lemma MailView(gw: Gw, key: Key, item: Item, k: Key)
    ensures var row := MailRow(key, item.args.to);
            ViewOf(gw.(mails := gw.mails + [row]), k) ==
              if k == key then ViewOf(gw, k).(mails := ViewOf(gw, k).mails + [row]) else ViewOf(gw, k)
  {
    var row := MailRow(key, item.args.to);
    assert (gw.mails + [row])[..|gw.mails|] == gw.mails;
    assert MailsFor(gw.mails, k) + [] == MailsFor(gw.mails, k);
  }

  lemma SagaView(gw: Gw, key: Key, k: Key)
    ensures var v := ViewOf(gw, k);
            ViewOf(gw.(sagas := gw.sagas + [key]), k) == if k == key then v.(sagas := v.sagas + 1) else v
    ensures var v := ViewOf(gw, k);
            ViewOf(gw.(compensations := gw.compensations + [key]), k) ==
              if k == key then v.(compensations := v.compensations + 1) else v
  {
    assert (gw.sagas + [key])[..|gw.sagas|] == gw.sagas;
    assert (gw.compensations + [key])[..|gw.compensations|] == gw.compensations;
  }

  /** An effect changes only the part of the view that belongs to its class. */
  lemma EffectView(gw: Gw, key: Key, item: Item, fuel: nat, k: Key)
    ensures var gw', v := Effect(gw, key, item, fuel).gw, ViewOf(gw, k);
            if k != key then ViewOf(gw', k) == v
            else match item.tool
                 case PureTool => ViewOf(gw', k) == v
                 case Charge => ViewOf(gw', k) == v
                 case HttpCharge =>
                   ViewOf(gw', k) == if fuel == 0 then v else v.(served := Some(Post(gw.service, key).1))
                 case Receipt =>
                   ViewOf(gw', k) ==
                     if v.receipt.Some? || fuel == 0 then v
                     else if fuel == 1 then v.(tmp := Some(ReceiptText(item.args)))
                     else v.(receipt := Some(ReceiptText(item.args)), tmp := None)
                 case Saga => ViewOf(gw', k) == if fuel == 0 then v else v.(sagas := v.sagas + 1)
                 case Email =>
                   ViewOf(gw', k) == if fuel == 0 then v else v.(mails := v.mails + [MailRow(key, item.args.to)])
  {
    match item.tool
    case PureTool =>
    case Charge =>
    case HttpCharge =>
    case Receipt =>
    case Saga => SagaView(gw, key, k);
    case Email => MailView(gw, key, item, k);
  }

  // ---- the crash argument ----

  lemma EffectThenRecordFrames(gw: Gw, key: Key, item: Item, fuel: nat, other: Key)
    requires other != key
    ensures ViewOf(EffectThenRecord(gw, key, item, fuel).gw, other) == ViewOf(gw, other)
  {
    var e := Effect(gw, key, item, fuel);
    EffectView(gw, key, item, fuel, other);
    if e.Returned? {
      RecordView(e.gw, key, item, Committed, Some(e.result), other);
    }
  }

  lemma ChargeTxView(gw: Gw, key: Key, item: Item, k: Key)
    ensures var v := ViewOf(gw, k);
            if k != key then ViewOf(ChargeTx(gw, key, item), k) == v
            else
              && ViewOf(ChargeTx(gw, key, item), k).charges ==
                  v.charges + [ChargeRow(key, item.args.order, item.args.amount)]
              && ViewOf(ChargeTx(gw, key, item), k) ==
                   ViewOf(Record(gw, key, item, Committed, Some(Charged(item.args.order))), k)
                     .(charges := v.charges + [ChargeRow(key, item.args.order, item.args.amount)])
  {
    ChargeView(gw, key, item, k);
  }

  lemma SagaFrames(gw: Gw, key: Key, item: Item, fuel: nat, other: Key)
    requires other != key && ClassOf(item.tool).Compensatable?
    ensures ViewOf(Execute(gw, key, item, fuel).gw, other) == ViewOf(gw, other)
  {
    var prepared := Record(gw, key, item, Prepared, None);
    RecordView(gw, key, item, Prepared, None, other);
    if fuel > 1 {
      var started := Record(prepared, key, item, EffectStarted, None);
      RecordView(prepared, key, item, EffectStarted, None, other);
      EffectThenRecordFrames(started, key, item, fuel - 2, other);
      assert Execute(gw, key, item, fuel) == EffectThenRecord(started, key, item, fuel - 2);
    }
  }

  lemma CompensateFrames(gw: Gw, key: Key, item: Item, fuel: nat, other: Key)
    requires other != key
    ensures ViewOf(Compensate(gw, key, item, fuel).gw, other) == ViewOf(gw, other)
  {
    var undone := gw.(compensations := gw.compensations + [key]);
    SagaView(gw, key, other);
    RecordView(undone, key, item, Compensated, None, other);
  }

  lemma MailFrames(gw: Gw, key: Key, item: Item, fuel: nat, other: Key)
    requires other != key && ClassOf(item.tool).Irreversible?
    ensures ViewOf(Execute(gw, key, item, fuel).gw, other) == ViewOf(gw, other)
  {
    if fuel > 0 {
      var prepared := Record(gw, key, item, Prepared, None);
      RecordView(gw, key, item, Prepared, None, other);
      EffectThenRecordFrames(prepared, key, item, fuel - 1, other);
      assert Execute(gw, key, item, fuel) == EffectThenRecord(prepared, key, item, fuel - 1);
    }
  }

  lemma ExecuteFrames(gw: Gw, key: Key, item: Item, fuel: nat, other: Key)
    requires other != key
    ensures ViewOf(Execute(gw, key, item, fuel).gw, other) == ViewOf(gw, other)
  {
    match ClassOf(item.tool)
    case Transactional => ChargeTxView(gw, key, item, other);
    case Compensatable => SagaFrames(gw, key, item, fuel, other);
    case Irreversible => MailFrames(gw, key, item, fuel, other);
    case _ =>
      EffectThenRecordFrames(gw, key, item, fuel, other);
      assert Execute(gw, key, item, fuel) == EffectThenRecord(gw, key, item, fuel);
  }

  /** A call answers from the table, compensates, or executes. */
  lemma CallIs(gw: Gw, key: Key, item: Item, fuel: nat)
    ensures var r := Call(gw, key, item, fuel);
            || r == Execute(gw, key, item, fuel)
            || r == Compensate(gw, key, item, fuel)
            || (r.Returned? && r.gw == gw && r.fuel == fuel)
  {
  }

  /** A call never disturbs another key. */
  lemma CallFrames(gw: Gw, key: Key, item: Item, fuel: nat, other: Key)
    requires other != key
    ensures ViewOf(Call(gw, key, item, fuel).gw, other) == ViewOf(gw, other)
  {
    ExecuteFrames(gw, key, item, fuel, other);
    CompensateFrames(gw, key, item, fuel, other);
    CallIs(gw, key, item, fuel);
  }

  /** The state of a key on which the effect may run. */
  ghost predicate MayRun(v: View, item: Item) {
    match ClassOf(item.tool)
    case Transactional => false
    case Irreversible => v.row.Some? && v.row.value.status.Prepared? && EffectNever(v, item)
    case Compensatable =>
      v.row.Some? && v.row.value.status.EffectStarted? && EffectNever(v, item) && v.compensations == 0
    case _ => v.row.None?
  }

  lemma EffectKeepsKey(gw: Gw, key: Key, item: Item, fuel: nat)
    requires KeyOk(ViewOf(gw, key), key, item) && MayRun(ViewOf(gw, key), item)
    ensures var e, v := Effect(gw, key, item, fuel), ViewOf(gw, key);
            var v' := ViewOf(e.gw, key);
            && KeyOk(v', key, item) && v'.row == v.row && v'.compensations == v.compensations
            && (e.Returned? ==> EffectOnce(v', key, item) && ResultOk(v', key, item, Some(e.result)))
  {
    EffectView(gw, key, item, fuel, key);
  }

  /** The effect and its record. */
  lemma EffectThenRecordKeepsKey(gw: Gw, key: Key, item: Item, fuel: nat)
    requires KeyOk(ViewOf(gw, key), key, item) && MayRun(ViewOf(gw, key), item)
    ensures var r := EffectThenRecord(gw, key, item, fuel);
            && KeyOk(ViewOf(r.gw, key), key, item)
            && (r.Returned? ==> r.result.Done? && Settled(ViewOf(r.gw, key), key, item)
                                && ViewOf(r.gw, key).row.value.status.Committed?
                                && ViewOf(r.gw, key).row.value.result == r.result.value)
  {
    hide Effect, Record, ViewOf;
    var e := Effect(gw, key, item, fuel);
    EffectKeepsKey(gw, key, item, fuel);
    if e.Returned? {
      RecordView(e.gw, key, item, Committed, Some(e.result), key);
    }
  }

  lemma SagaKeepsKey(gw: Gw, key: Key, item: Item, fuel: nat)
    requires KeyOk(ViewOf(gw, key), key, item) && item.tool.Saga?
    requires var v := ViewOf(gw, key); v.row.None? || v.row.value.status.Prepared?
    ensures var r := Execute(gw, key, item, fuel);
            && KeyOk(ViewOf(r.gw, key), key, item)
            && (r.Returned? ==> r.result.Done? && Settled(ViewOf(r.gw, key), key, item)
                                && ViewOf(r.gw, key).row.value.status.Committed?
                                && ViewOf(r.gw, key).row.value.result == r.result.value)
  {
    hide Effect, Record, ViewOf, EffectThenRecord;
    var prepared := Record(gw, key, item, Prepared, None);
    RecordView(gw, key, item, Prepared, None, key);
    RecordView(prepared, key, item, EffectStarted, None, key);
    if fuel > 1 {
      EffectThenRecordKeepsKey(Record(prepared, key, item, EffectStarted, None), key, item, fuel - 2);
    }
  }

  lemma CompensateKeepsKey(gw: Gw, key: Key, item: Item, fuel: nat)
    requires KeyOk(ViewOf(gw, key), key, item) && item.tool.Saga?
    requires var v := ViewOf(gw, key); v.row.Some? && v.row.value.status.EffectStarted?
    ensures var r := Compensate(gw, key, item, fuel);
            && KeyOk(ViewOf(r.gw, key), key, item)
            && (r.Returned? ==> r.result.CompensatedResult? && Settled(ViewOf(r.gw, key), key, item)
                                && ViewOf(r.gw, key).row.value.status.Compensated?)
  {
    SagaView(gw, key, key);
    RecordView(gw.(compensations := gw.compensations + [key]), key, item, Compensated, None, key);
  }

  lemma MailKeepsKey(gw: Gw, key: Key, item: Item, fuel: nat)
    requires KeyOk(ViewOf(gw, key), key, item) && item.tool.Email? && ViewOf(gw, key).row.None?
    ensures var r := Execute(gw, key, item, fuel);
            && KeyOk(ViewOf(r.gw, key), key, item)
            && (r.Returned? ==> r.result.Done? && Settled(ViewOf(r.gw, key), key, item)
                                && ViewOf(r.gw, key).row.value.status.Committed?
                                && ViewOf(r.gw, key).row.value.result == r.result.value)
  {
    hide Effect, Record, ViewOf, EffectThenRecord;
    if fuel > 0 {
      RecordView(gw, key, item, Prepared, None, key);
      EffectThenRecordKeepsKey(Record(gw, key, item, Prepared, None), key, item, fuel - 1);
    }
  }

  lemma ChargeKeepsKey(gw: Gw, key: Key, item: Item, fuel: nat)
    requires KeyOk(ViewOf(gw, key), key, item) && item.tool.Charge? && ViewOf(gw, key).row.None?
    ensures var r := Execute(gw, key, item, fuel);
            && KeyOk(ViewOf(r.gw, key), key, item)
            && (r.Returned? ==> r.result.Done? && Settled(ViewOf(r.gw, key), key, item)
                                && ViewOf(r.gw, key).row.value.status.Committed?
                                && ViewOf(r.gw, key).row.value.result == r.result.value)
  {
    ChargeTxView(gw, key, item, key);
    RecordView(gw, key, item, Committed, Some(Charged(item.args.order)), key);
  }

  lemma ExecuteKeepsKey(gw: Gw, key: Key, item: Item, fuel: nat)
    requires KeyOk(ViewOf(gw, key), key, item)
    requires var v := ViewOf(gw, key);
             v.row.None? || (ClassOf(item.tool).Compensatable? && v.row.value.status.Prepared?)
    ensures var r := Execute(gw, key, item, fuel);
            && KeyOk(ViewOf(r.gw, key), key, item)
            && (r.Returned? ==> r.result.Done? && Settled(ViewOf(r.gw, key), key, item)
                                && ViewOf(r.gw, key).row.value.status.Committed?
                                && ViewOf(r.gw, key).row.value.result == r.result.value)
  {
    match item.tool
    case Charge => ChargeKeepsKey(gw, key, item, fuel);
    case Saga => SagaKeepsKey(gw, key, item, fuel);
    case Email => MailKeepsKey(gw, key, item, fuel);
    case _ =>
      EffectThenRecordKeepsKey(gw, key, item, fuel);
      assert Execute(gw, key, item, fuel) == EffectThenRecord(gw, key, item, fuel);
  }

  /** ONE CALL, CUT ANYWHERE: its key stays within the state machine of its class, and an answer is
      given only for a key that is settled or, for an irreversible tool, surfaced as uncertain. */
  lemma CallKeepsKey(gw: Gw, key: Key, item: Item, fuel: nat)
    requires KeyOk(ViewOf(gw, key), key, item)
    ensures var r := Call(gw, key, item, fuel);
            var v := ViewOf(r.gw, key);
            && KeyOk(v, key, item)
            && (r.Returned? ==>
                  && !r.result.ContentMismatch?
                  && Answered(v, key, item)
                  && (r.result.Done? || r.result.DedupHit? <==>
                        v.row.Some? && v.row.value.status.Committed?)
                  && (r.result.Done? || r.result.DedupHit? ==> r.result.value == v.row.value.result)
                  && (r.result.Uncertain? <==> v.row.Some? && v.row.value.status.Prepared?)
                  && (r.result.CompensatedResult? <==> v.row.Some? && v.row.value.status.Compensated?))
  {
    var v := ViewOf(gw, key);
    if v.row.None? || (ClassOf(item.tool).Compensatable? && v.row.value.status.Prepared?) {
      ExecuteKeepsKey(gw, key, item, fuel);
    } else if ClassOf(item.tool).Compensatable? && v.row.value.status.EffectStarted? {
      CompensateKeepsKey(gw, key, item, fuel);
    }
  }

  /** Committed, compensated and uncertain are final: a further call changes nothing at all. */
  lemma AnsweredIsFinal(gw: Gw, key: Key, item: Item, fuel: nat)
    requires KeyOk(ViewOf(gw, key), key, item) && Answered(ViewOf(gw, key), key, item)
    ensures var r := Call(gw, key, item, fuel);
            r.Returned? && r.gw == gw && r.fuel == fuel
  {
  }

  lemma EffectKeepsService(gw: Gw, key: Key, item: Item, fuel: nat)
    requires ServiceOk(gw.service)
    ensures ServiceOk(EffectThenRecord(gw, key, item, fuel).gw.service)
  {
  }

  /** The service's ledger counts the distinct keys it has served. */
  lemma CallKeepsService(gw: Gw, key: Key, item: Item, fuel: nat)
    requires ServiceOk(gw.service)
    ensures ServiceOk(Call(gw, key, item, fuel).gw.service)
  {
    EffectKeepsService(gw, key, item, fuel);
    var prepared := Record(gw, key, item, Prepared, None);
    if fuel > 0 {
      EffectKeepsService(prepared, key, item, fuel - 1);
    }
    if fuel > 1 {
      EffectKeepsService(Record(prepared, key, item, EffectStarted, None), key, item, fuel - 2);
    }
    CallIs(gw, key, item, fuel);
  }
}
