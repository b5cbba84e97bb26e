/** Any number of coordinators racing to run and recover any number of turns of charges.

    A run is a list of events applied to the initial state; an event that its coordinator cannot
    perform changes nothing, so every statement over event lists is a statement over every
    interleaving.  `offers` holds the plans that processes may persist or run for each turn; nothing
    requires them to agree. */
module TurnProtocol {
  import opened Identity
  import opened Dtx
  import opened Plans

  /** One operating-system process.  `Working` has performed the first |results| steps of its plan. */
  datatype Coord =
    | Down
    | Acquired(key: TurnKey, epoch: nat)
    | Working(key: TurnKey, epoch: nat, commitId: CommitId, plan: Plan, results: seq<Outcome>)
    | Fenced(key: TurnKey, epoch: nat, plan: Plan, reached: nat)
    | Failed
    | Finished(key: TurnKey, epoch: nat, plan: Plan, results: seq<Outcome>)
  {
    predicate Holds(k: TurnKey, e: nat) {
      !Down? && !Failed? && key == k && epoch == e
    }
  }

  datatype State = State(db: Db, coords: seq<Coord>)

  datatype Event =
    | Begin(key: TurnKey, plan: Plan)         // the plan is persisted by whoever received the model output
    | Acquire(who: nat, key: TurnKey)         // a fresh process takes the next epoch
    | Run(who: nat)                           // the process performs the next action of its program
    | RunWithPlan(who: nat, plan: Plan)       // it begins the turn with a plan of its own and runs that
    | DieInCharge(who: nat)                   // the process dies inside the transaction
    | Exit(who: nat)                          // the process dies, or ends, anywhere else

  function Init(n: nat): State {
    State(Db(map[], map[], map[], []), seq(n, _ => Down))
  }

  function Put(s: State, db: Db, who: nat, c: Coord): State
    requires who < |s.coords|
  {
    State(db, s.coords[who := c])
  }

  function AfterCharge(c: Coord, outcome: Outcome): Coord
    requires c.Working?
  {
    match outcome
    case Committed(_) => Working(c.key, c.epoch, c.commitId, c.plan, c.results + [outcome])
    case Dedup(_) => Working(c.key, c.epoch, c.commitId, c.plan, c.results + [outcome])
    case StaleOwner => Fenced(c.key, c.epoch, c.plan, |c.results|)
    case ContentMismatch => Failed
    case MissingArgument => Failed
    case Crashed => Down
  }

  function RunNext(s: State, who: nat, crash: bool): State
    requires who < |s.coords| && s.coords[who].Working?
  {
    var c := s.coords[who];
    if |c.results| < |c.plan| then
      var (db', outcome) := ChargeTx(s.db, c.key, c.commitId, c.plan[|c.results|], c.epoch, crash);
      Put(s, db', who, AfterCharge(c, outcome))
    else if crash then
      Put(s, s.db, who, Down)
    else
      Put(s, CommitTurnDb(s.db, c.key), who, Finished(c.key, c.epoch, c.plan, c.results))
  }

  function Load(s: State, who: nat): State
    requires who < |s.coords| && s.coords[who].Acquired?
  {
    var c := s.coords[who];
    match LoadDb(s.db, c.key)
    case Some((commitId, plan)) => Put(s, s.db, who, Working(c.key, c.epoch, commitId, plan, []))
    case None => Put(s, s.db, who, Failed)
  }

  function Step(offers: Offers, s: State, event: Event): (s': State)
    ensures |s'.coords| == |s.coords|
  {
    match event
    case Begin(k, plan) =>
      if Offered(offers, k, plan) then s.(db := BeginDb(s.db, k, plan)) else s
    case Acquire(who, k) =>
      if who < |s.coords| && s.coords[who].Down? then
        var db' := AcquireDb(s.db, k);
        Put(s, db', who, Acquired(k, OwnerOf(db', k)))
      else s
    case Run(who) =>
      if who >= |s.coords| then s
      else if s.coords[who].Acquired? then Load(s, who)
      else if s.coords[who].Working? then RunNext(s, who, false)
      else s
    case RunWithPlan(who, plan) =>
      if who < |s.coords| && s.coords[who].Acquired? && Offered(offers, s.coords[who].key, plan) then
        var c := s.coords[who];
        Put(s, BeginDb(s.db, c.key, plan), who, Working(c.key, c.epoch, CommitIdOf(plan), plan, []))
      else s
    case DieInCharge(who) =>
      if who < |s.coords| && s.coords[who].Working? then RunNext(s, who, true) else s
    case Exit(who) =>
      if who < |s.coords| then Put(s, s.db, who, Down) else s
  }

  function Exec(offers: Offers, s: State, events: seq<Event>): (s': State)
    ensures |s'.coords| == |s.coords|
    decreases |events|
  {
    if events == [] then s else Exec(offers, Step(offers, s, events[0]), events[1..])
  }

  /** THE ADVERSARY: in every state any process may be gone with the tables as they are; a fresh one may bring any plan
      offered for its turn, which is stored only if none is; and one may die inside a charge that would have been made,
      which then is not. */
  lemma AdversaryMay(offers: Offers, s: State, who: nat, plan: Plan)
    requires who < |s.coords|
    ensures Step(offers, s, Exit(who)) == State(s.db, s.coords[who := Down])
    ensures var c := s.coords[who];
            c.Acquired? && Offered(offers, c.key, plan) ==>
              var turns := if c.key in s.db.turns then s.db.turns
                           else s.db.turns[c.key := TurnRow(CommitIdOf(plan), plan, false)];
              Step(offers, s, RunWithPlan(who, plan)) ==
                State(s.db.(turns := turns), s.coords[who := Working(c.key, c.epoch, CommitIdOf(plan), plan, [])])
    ensures var c := s.coords[who];
            c.Working? && |c.results| < |c.plan|
            && ChargeTx(s.db, c.key, c.commitId, c.plan[|c.results|], c.epoch, false).1.Committed? ==>
              Step(offers, s, DieInCharge(who)) == State(s.db, s.coords[who := Down])
  {
  }

  // ---- the inductive invariant ----

  predicate IsOf(a: Aid, k: TurnKey, plan: Plan) {
    KeyOf(a) == k && a.commitId == CommitIdOf(plan)
  }

  /** The charge rows made for one plan of one turn, in table order. */
  function ChargesOf(charges: seq<ChargeRow>, k: TurnKey, plan: Plan): seq<ChargeRow> {
    if charges == [] then []
    else
      var last := charges[|charges| - 1];
      ChargesOf(charges[..|charges| - 1], k, plan) + if IsOf(last.aid, k, plan) then [last] else []
  }

  /** The charge rows of a crash-free run of one plan. */
  function PlanCharges(k: TurnKey, plan: Plan): seq<ChargeRow> {
    seq(|plan|, i requires 0 <= i < |plan| =>
      match plan[i].args
      case ChargeArgs(order, amount) => ChargeRow(order, amount, AidAt(k, plan, i))
      case ReceiptArgs(order, _) => ChargeRow(order, 0, AidAt(k, plan, i)))
  }

  /** How far a plan has come: the number of its charge rows. */
  function Progress(db: Db, k: TurnKey, plan: Plan): nat {
    |ChargesOf(db.charges, k, plan)|
  }

  ghost predicate RowOk(db: Db, k: TurnKey, plan: Plan, i: nat)
    requires i < |plan| && AidAt(k, plan, i) in db.actions
  {
    var row := db.actions[AidAt(k, plan, i)];
    && plan[i].args.ChargeArgs?
    && row.argsFp == FingerprintOf(plan[i].args)
    && row.klass == Transactional
    && row.result == Some(Charged(plan[i].args.order, plan[i].args.amount))
    && 1 <= row.ownerEpoch <= OwnerOf(db, k)
  }

  /** What is there of a plan is a prefix of it, claimed in order. */
  ghost predicate PlanOk(db: Db, k: TurnKey, plan: Plan) {
    var n := Progress(db, k, plan);
    && n <= |plan|
    && ChargesOf(db.charges, k, plan) == PlanCharges(k, plan)[..n]
    && (forall i :: 0 <= i < |plan| ==> (AidAt(k, plan, i) in db.actions <==> i < n))
    && (forall i :: 0 <= i < n ==> RowOk(db, k, plan, i))
    && (forall i, j :: 0 <= i < j < n ==>
          db.actions[AidAt(k, plan, i)].ownerEpoch <= db.actions[AidAt(k, plan, j)].ownerEpoch)
  }

  ghost predicate StoredOk(offers: Offers, db: Db, k: TurnKey) {
    k in db.turns && Offered(offers, k, db.turns[k].plan) && db.turns[k].commitId == CommitIdOf(db.turns[k].plan)
  }

  ghost predicate Complete(offers: Offers, db: Db, k: TurnKey, plan: Plan) {
    Offered(offers, k, plan) && Progress(db, k, plan) == |plan|
  }

  ghost predicate InPlan(offers: Offers, a: Aid) {
    var k, plan := KeyOf(a), a.commitId.plan;
    Offered(offers, k, plan) && exists i :: 0 <= i < |plan| && a == AidAt(k, plan, i)
  }

  ghost predicate DbOk(offers: Offers, db: Db) {
    && (forall k, plan :: PlanOk(db, k, plan))
    && (forall k :: k in db.turns ==> StoredOk(offers, db, k))
    && (forall k :: k in db.turns && db.turns[k].committed ==> exists plan :: Complete(offers, db, k, plan))
    && (forall a :: a in db.actions ==> InPlan(offers, a))
  }

  ghost predicate ResultsOk(plan: Plan, results: seq<Outcome>) {
    && |results| <= |plan|
    && forall j :: 0 <= j < |results| ==>
         && (results[j].Committed? || results[j].Dedup?) && plan[j].args.ChargeArgs?
         && results[j].value == Some(Charged(plan[j].args.order, plan[j].args.amount))
  }

  ghost predicate CoordOk(offers: Offers, db: Db, c: Coord) {
    match c
    case Down => true
    case Failed => true
    case Acquired(k, e) => 1 <= e <= OwnerOf(db, k)
    case Working(k, e, cid, plan, results) =>
      && 1 <= e <= OwnerOf(db, k)
      && k in db.turns && Offered(offers, k, plan) && cid == CommitIdOf(plan)
      && ResultsOk(plan, results) && |results| <= Progress(db, k, plan)
    case Fenced(k, e, _, _) => 1 <= e < OwnerOf(db, k)
    case Finished(k, e, plan, results) =>
      && 1 <= e <= OwnerOf(db, k)
      && k in db.turns && Complete(offers, db, k, plan)
      && ResultsOk(plan, results) && |results| == |plan|
      && db.turns[k].committed
  }

  ghost predicate OneHolderPerEpoch(coords: seq<Coord>) {
    forall i, j, k, e :: 0 <= i < |coords| && 0 <= j < |coords| && coords[i].Holds(k, e) && coords[j].Holds(k, e)
      ==> i == j
  }

  ghost predicate Inv(offers: Offers, s: State) {
    && DbOk(offers, s.db)
    && (forall i :: 0 <= i < |s.coords| ==> CoordOk(offers, s.db, s.coords[i]))
    && OneHolderPerEpoch(s.coords)
  }

  // ---- one charge ----

  function Claim(db: Db, k: TurnKey, plan: Plan, i: nat, epoch: nat): Db
    requires i < |plan| && plan[i].args.ChargeArgs?
  {
    var aid, args := AidAt(k, plan, i), plan[i].args;
    var value := Charged(args.order, args.amount);
    db.(actions := db.actions[aid := ActionRow(FingerprintOf(args), Transactional, Some(value), epoch)],
        charges := db.charges + [ChargeRow(args.order, args.amount, aid)])
  }

  /** Claiming the next action adds its charge row to its own plan and to no other. */
  lemma ClaimProgress(db: Db, k: TurnKey, plan: Plan, i: nat, epoch: nat, k': TurnKey, plan': Plan)
    requires i < |plan| && plan[i].args.ChargeArgs?
    ensures ChargesOf(Claim(db, k, plan, i, epoch).charges, k', plan')
         == ChargesOf(db.charges, k', plan') + if k' == k && plan' == plan then [PlanCharges(k, plan)[i]] else []
  {
    var row := PlanCharges(k, plan)[i];
    assert (db.charges + [row])[..|db.charges|] == db.charges;
  }

  lemma ClaimKeepsOwnPlan(db: Db, k: TurnKey, plan: Plan, epoch: nat)
    requires PlanOk(db, k, plan) && DistinctOrdinals(plan) && Progress(db, k, plan) < |plan|
    requires plan[Progress(db, k, plan)].args.ChargeArgs?
    requires epoch == OwnerOf(db, k) && 1 <= epoch
    ensures PlanOk(Claim(db, k, plan, Progress(db, k, plan), epoch), k, plan)
  {
    var n := Progress(db, k, plan);
    var db' := Claim(db, k, plan, n, epoch);
    AidsDistinct(k, plan);
    ClaimProgress(db, k, plan, n, epoch, k, plan);
    assert PlanCharges(k, plan)[..n + 1] == PlanCharges(k, plan)[..n] + [PlanCharges(k, plan)[n]];
    forall i | 0 <= i < n + 1 ensures AidAt(k, plan, i) in db'.actions && RowOk(db', k, plan, i) {
      assert i < n ==> RowOk(db, k, plan, i);
    }
    forall i, j | 0 <= i < j < n + 1
      ensures db'.actions[AidAt(k, plan, i)].ownerEpoch <= db'.actions[AidAt(k, plan, j)].ownerEpoch
    {
      assert RowOk(db, k, plan, i);
    }
  }

  lemma ClaimKeepsOtherPlan(db: Db, k: TurnKey, plan: Plan, i: nat, epoch: nat, k': TurnKey, plan': Plan)
    requires i < |plan| && plan[i].args.ChargeArgs? && (k' != k || plan' != plan) && PlanOk(db, k', plan')
    ensures PlanOk(Claim(db, k, plan, i, epoch), k', plan')
  {
    var db' := Claim(db, k, plan, i, epoch);
    ClaimProgress(db, k, plan, i, epoch, k', plan');
    assert ChargesOf(db'.charges, k', plan') == ChargesOf(db.charges, k', plan');
    assert forall j :: 0 <= j < |plan'| ==> AidAt(k', plan', j) != AidAt(k, plan, i);
    forall j | 0 <= j < Progress(db, k', plan') ensures RowOk(db', k', plan', j) {
      assert RowOk(db, k', plan', j);
    }
  }

  lemma ClaimKeepsDbOk(offers: Offers, db: Db, k: TurnKey, plan: Plan, epoch: nat)
    requires OffersOk(offers) && DbOk(offers, db) && Offered(offers, k, plan) && Progress(db, k, plan) < |plan|
    requires plan[Progress(db, k, plan)].args.ChargeArgs?
    requires epoch == OwnerOf(db, k) && 1 <= epoch
    ensures var db' := Claim(db, k, plan, Progress(db, k, plan), epoch);
            && DbOk(offers, db')
            && forall k', plan' ::
                 Progress(db', k', plan') == Progress(db, k', plan') + if k' == k && plan' == plan then 1 else 0
  {
    var n := Progress(db, k, plan);
    var db' := Claim(db, k, plan, n, epoch);
    hide RowOk;
    forall k', plan'
      ensures Progress(db', k', plan') == Progress(db, k', plan') + if k' == k && plan' == plan then 1 else 0
    {
      ClaimProgress(db, k, plan, n, epoch, k', plan');
    }
    forall k', plan' ensures PlanOk(db', k', plan') {
      assert PlanOk(db, k', plan');
      if k' == k && plan' == plan {
        ClaimKeepsOwnPlan(db, k, plan, epoch);
      } else {
        ClaimKeepsOtherPlan(db, k, plan, n, epoch, k', plan');
      }
    }
    hide PlanOk, ChargesOf;
    forall k' | k' in db'.turns && db'.turns[k'].committed ensures exists p :: Complete(offers, db', k', p) {
      var p :| Complete(offers, db, k', p);
      assert Complete(offers, db', k', p) by {
        assert k' == k && p == plan ==> Progress(db, k, plan) == |plan|;
      }
    }
    assert InPlan(offers, AidAt(k, plan, n));
  }

  /** What a coordinator's charge step does to the tables: nothing, or the next charge of its plan,
      claimed under the epoch in force at that moment. */
  lemma ChargeEffect(offers: Offers, db: Db, c: Coord, crash: bool)
    requires OffersOk(offers) && DbOk(offers, db) && c.Working? && CoordOk(offers, db, c) && |c.results| < |c.plan|
    ensures var i := |c.results|;
            var n := Progress(db, c.key, c.plan);
            var (db', outcome) := ChargeTx(db, c.key, c.commitId, c.plan[i], c.epoch, crash);
            && DbOk(offers, db')
            && (forall k, plan :: Progress(db', k, plan) ==
                  Progress(db, k, plan) + if k == c.key && plan == c.plan && outcome.Committed? then 1 else 0)
            && !outcome.ContentMismatch?
            && (outcome.StaleOwner? <==> c.epoch != OwnerOf(db, c.key))
            && (outcome.Dedup? <==> c.epoch == OwnerOf(db, c.key) && i < n)
            && (outcome.MissingArgument? <==> c.epoch == OwnerOf(db, c.key) && i == n && !c.plan[i].args.ChargeArgs?)
            && (outcome.Crashed? <==> c.epoch == OwnerOf(db, c.key) && i == n && c.plan[i].args.ChargeArgs? && crash)
            && (outcome.Committed? <==> c.epoch == OwnerOf(db, c.key) && i == n && c.plan[i].args.ChargeArgs? && !crash)
            && (outcome.Committed? || outcome.Dedup? ==> c.plan[i].args.ChargeArgs?)
            && (outcome.Committed? || outcome.Dedup? ==>
                 outcome.value == Some(Charged(c.plan[i].args.order, c.plan[i].args.amount)))
            && (if outcome.Committed? then db' == Claim(db, c.key, c.plan, i, c.epoch) else db' == db)
            && (AidAt(c.key, c.plan, i) in db.actions <==> i < n)
  {
    var k, plan, i := c.key, c.plan, |c.results|;
    var n := Progress(db, k, plan);
    assert PlanOk(db, k, plan);
    assert c.epoch == OwnerOf(db, k) <==> k in db.owner && db.owner[k] == c.epoch;
    assert i < n ==> RowOk(db, k, plan, i);
    var (db', outcome) := ChargeTx(db, k, c.commitId, plan[i], c.epoch, crash);
    if outcome.Committed? {
      assert i == n;
      ClaimKeepsDbOk(offers, db, k, plan, c.epoch);
    }
  }

  // ---- every event keeps the invariant ----

  /** Tables only move forward under the other coordinators. */
  ghost predicate Grows(db: Db, db': Db) {
    && (forall k :: OwnerOf(db, k) <= OwnerOf(db', k))
    && (forall k, plan :: Progress(db, k, plan) <= Progress(db', k, plan))
    && (forall k :: k in db.turns ==> k in db'.turns && (db.turns[k].committed ==> db'.turns[k].committed))
  }

  lemma CoordKept(offers: Offers, db: Db, db': Db, c: Coord)
    requires DbOk(offers, db') && Grows(db, db') && CoordOk(offers, db, c)
    ensures CoordOk(offers, db', c)
  {
    if c.Finished? {
      assert PlanOk(db', c.key, c.plan);
    }
  }

  /** One coordinator moves and the tables move forward. */
  lemma PutKeepsInv(offers: Offers, s: State, db': Db, who: nat, c: Coord)
    requires Inv(offers, s) && who < |s.coords| && DbOk(offers, db') && Grows(s.db, db') && CoordOk(offers, db', c)
    requires forall i, k, e :: 0 <= i < |s.coords| && c.Holds(k, e) && s.coords[i].Holds(k, e) ==> i == who
    ensures Inv(offers, Put(s, db', who, c))
  {
    hide DbOk, CoordOk, Grows;
    var s' := Put(s, db', who, c);
    forall i | 0 <= i < |s'.coords| ensures CoordOk(offers, db', s'.coords[i]) {
      if i != who {
        CoordKept(offers, s.db, db', s.coords[i]);
      }
    }
  }

  /** Changes that add no rows: epochs grow, turns are begun, complete turns are marked committed. */
  lemma RowsKept(offers: Offers, db: Db, db': Db)
    requires DbOk(offers, db) && db'.actions == db.actions && db'.charges == db.charges
    requires forall k :: OwnerOf(db, k) <= OwnerOf(db', k)
    requires forall k :: k in db.turns ==> k in db'.turns && (db.turns[k].committed ==> db'.turns[k].committed)
    requires forall k :: k in db'.turns ==> StoredOk(offers, db', k)
    requires forall k :: k in db'.turns && db'.turns[k].committed ==> exists plan :: Complete(offers, db, k, plan)
    ensures DbOk(offers, db') && Grows(db, db')
  {
    forall k, plan ensures PlanOk(db', k, plan) && Progress(db', k, plan) == Progress(db, k, plan) {
      assert PlanOk(db, k, plan);
      forall i | 0 <= i < Progress(db, k, plan) ensures RowOk(db', k, plan, i) {
        assert RowOk(db, k, plan, i);
      }
    }
    hide PlanOk;
    forall k | k in db'.turns && db'.turns[k].committed ensures exists plan :: Complete(offers, db', k, plan) {
      var plan :| Complete(offers, db, k, plan);
      assert Complete(offers, db', k, plan);
    }
  }

  lemma BeginKeepsDbOk(offers: Offers, db: Db, k: TurnKey, plan: Plan)
    requires DbOk(offers, db) && Offered(offers, k, plan)
    ensures DbOk(offers, BeginDb(db, k, plan)) && Grows(db, BeginDb(db, k, plan))
  {
    hide PlanOk, InPlan, Progress;
    var db' := BeginDb(db, k, plan);
    forall k' | k' in db'.turns ensures StoredOk(offers, db', k') {
      assert k' in db.turns ==> StoredOk(offers, db, k');
    }
    RowsKept(offers, db, db');
  }

  lemma AcquireKeepsDbOk(offers: Offers, db: Db, k: TurnKey)
    requires DbOk(offers, db)
    ensures DbOk(offers, AcquireDb(db, k)) && Grows(db, AcquireDb(db, k))
  {
    hide PlanOk, InPlan, Progress;
    var db' := AcquireDb(db, k);
    forall k' | k' in db'.turns ensures StoredOk(offers, db', k') {
      assert StoredOk(offers, db, k');
    }
    RowsKept(offers, db, db');
  }

  lemma CommitTurnKeepsDbOk(offers: Offers, db: Db, k: TurnKey, plan: Plan)
    requires DbOk(offers, db) && k in db.turns && Complete(offers, db, k, plan)
    ensures DbOk(offers, CommitTurnDb(db, k)) && Grows(db, CommitTurnDb(db, k))
  {
    hide PlanOk, InPlan, Progress;
    var db' := CommitTurnDb(db, k);
    forall k' | k' in db'.turns ensures StoredOk(offers, db', k') {
      assert StoredOk(offers, db, k');
    }
    RowsKept(offers, db, db');
  }

  /** A charge moves the tables forward and leaves its coordinator in order. */
  lemma ChargeMovesOn(offers: Offers, db: Db, c: Coord, crash: bool)
    requires OffersOk(offers) && DbOk(offers, db) && c.Working? && CoordOk(offers, db, c) && |c.results| < |c.plan|
    ensures var (db', outcome) := ChargeTx(db, c.key, c.commitId, c.plan[|c.results|], c.epoch, crash);
            DbOk(offers, db') && Grows(db, db') && CoordOk(offers, db', AfterCharge(c, outcome))
  {
    ChargeEffect(offers, db, c, crash);
    hide ChargeTx, DbOk, Progress, OffersOk;
  }

  lemma FinishKeepsInv(offers: Offers, s: State, who: nat)
    requires Inv(offers, s) && who < |s.coords| && s.coords[who].Working?
    requires |s.coords[who].results| >= |s.coords[who].plan|
    ensures Inv(offers, RunNext(s, who, false))
  {
    var c := s.coords[who];
    assert CoordOk(offers, s.db, c) && PlanOk(s.db, c.key, c.plan);
    hide PlanOk, DbOk;
    assert Complete(offers, s.db, c.key, c.plan);
    CommitTurnKeepsDbOk(offers, s.db, c.key, c.plan);
    hide OneHolderPerEpoch;
    HoldersApart(offers, s, who, Finished(c.key, c.epoch, c.plan, c.results));
    PutKeepsInv(offers, s, CommitTurnDb(s.db, c.key), who, Finished(c.key, c.epoch, c.plan, c.results));
  }

  /** A coordinator that keeps its epoch, or gives it up, stays its only holder. */
  lemma HoldersApart(offers: Offers, s: State, who: nat, c: Coord)
    requires Inv(offers, s) && who < |s.coords|
    requires c.Down? || c.Failed? || s.coords[who].Holds(c.key, c.epoch)
    ensures forall i, k, e :: 0 <= i < |s.coords| && c.Holds(k, e) && s.coords[i].Holds(k, e) ==> i == who
  {
  }

  lemma RunNextKeepsInv(offers: Offers, s: State, who: nat, crash: bool)
    requires OffersOk(offers) && Inv(offers, s) && who < |s.coords| && s.coords[who].Working?
    ensures Inv(offers, RunNext(s, who, crash))
  {
    var c := s.coords[who];
    assert CoordOk(offers, s.db, c);
    if |c.results| < |c.plan| {
      hide ChargeTx, DbOk, CoordOk, OneHolderPerEpoch, Grows;
      var (db', outcome) := ChargeTx(s.db, c.key, c.commitId, c.plan[|c.results|], c.epoch, crash);
      ChargeMovesOn(offers, s.db, c, crash);
      HoldersApart(offers, s, who, AfterCharge(c, outcome));
      PutKeepsInv(offers, s, db', who, AfterCharge(c, outcome));
    } else if crash {
      PutKeepsInv(offers, s, s.db, who, Down);
    } else {
      FinishKeepsInv(offers, s, who);
    }
  }

  lemma AcquireKeepsInv(offers: Offers, s: State, who: nat, k: TurnKey)
    requires Inv(offers, s) && who < |s.coords| && s.coords[who].Down?
    ensures Inv(offers, Step(offers, s, Acquire(who, k)))
  {
    var db' := AcquireDb(s.db, k);
    AcquireKeepsDbOk(offers, s.db, k);
    hide DbOk, Grows;
    forall i | 0 <= i < |s.coords| ensures !s.coords[i].Holds(k, OwnerOf(db', k)) {
      assert CoordOk(offers, s.db, s.coords[i]);
    }
    PutKeepsInv(offers, s, db', who, Acquired(k, OwnerOf(db', k)));
  }

  lemma LoadKeepsInv(offers: Offers, s: State, who: nat)
    requires Inv(offers, s) && who < |s.coords| && s.coords[who].Acquired?
    ensures Inv(offers, Load(s, who))
  {
    var c := s.coords[who];
    assert CoordOk(offers, s.db, c);
    assert c.key in s.db.turns ==> StoredOk(offers, s.db, c.key);
    hide DbOk;
    HoldersApart(offers, s, who, Load(s, who).coords[who]);
    PutKeepsInv(offers, s, s.db, who, Load(s, who).coords[who]);
  }

  lemma BeginKeepsInv(offers: Offers, s: State, k: TurnKey, plan: Plan)
    requires Inv(offers, s) && Offered(offers, k, plan)
    ensures Inv(offers, s.(db := BeginDb(s.db, k, plan)))
  {
    BeginKeepsDbOk(offers, s.db, k, plan);
    hide DbOk, Grows;
    forall i | 0 <= i < |s.coords| ensures CoordOk(offers, BeginDb(s.db, k, plan), s.coords[i]) {
      CoordKept(offers, s.db, BeginDb(s.db, k, plan), s.coords[i]);
    }
  }

  lemma RunWithPlanKeepsInv(offers: Offers, s: State, who: nat, plan: Plan)
    requires Inv(offers, s) && who < |s.coords| && s.coords[who].Acquired? && Offered(offers, s.coords[who].key, plan)
    ensures Inv(offers, Step(offers, s, RunWithPlan(who, plan)))
  {
    var c := s.coords[who];
    assert CoordOk(offers, s.db, c);
    BeginKeepsDbOk(offers, s.db, c.key, plan);
    hide DbOk, Grows;
    var c' := Working(c.key, c.epoch, CommitIdOf(plan), plan, []);
    HoldersApart(offers, s, who, c');
    PutKeepsInv(offers, s, BeginDb(s.db, c.key, plan), who, c');
  }

  lemma StepKeepsInv(offers: Offers, s: State, event: Event)
    requires OffersOk(offers) && Inv(offers, s)
    ensures Inv(offers, Step(offers, s, event))
  {
    hide Inv, OffersOk, RunNext, Load;
    match event
    case Begin(k, plan) =>
      if Offered(offers, k, plan) {
        BeginKeepsInv(offers, s, k, plan);
      }
    case Acquire(who, k) =>
      if who < |s.coords| && s.coords[who].Down? {
        AcquireKeepsInv(offers, s, who, k);
      }
    case Run(who) =>
      if who < |s.coords| && s.coords[who].Acquired? {
        LoadKeepsInv(offers, s, who);
      } else if who < |s.coords| && s.coords[who].Working? {
        RunNextKeepsInv(offers, s, who, false);
      }
    case RunWithPlan(who, plan) =>
      if who < |s.coords| && s.coords[who].Acquired? && Offered(offers, s.coords[who].key, plan) {
        RunWithPlanKeepsInv(offers, s, who, plan);
      }
    case DieInCharge(who) =>
      if who < |s.coords| && s.coords[who].Working? {
        RunNextKeepsInv(offers, s, who, true);
      }
    case Exit(who) =>
      if who < |s.coords| {
        ExitKeepsInv(offers, s, who);
      }
  }

  lemma ExitKeepsInv(offers: Offers, s: State, who: nat)
    requires Inv(offers, s) && who < |s.coords|
    ensures Inv(offers, Put(s, s.db, who, Down))
  {
    hide DbOk;
    PutKeepsInv(offers, s, s.db, who, Down);
  }

  /** SAFETY: the invariant holds in every reachable state. */
  lemma {:induction false} ExecKeepsInv(offers: Offers, s: State, events: seq<Event>)
    requires OffersOk(offers) && Inv(offers, s)
    ensures Inv(offers, Exec(offers, s, events))
    decreases |events|
  {
    if events != [] {
      StepKeepsInv(offers, s, events[0]);
      ExecKeepsInv(offers, Step(offers, s, events[0]), events[1..]);
    }
  }

  lemma Reachable(offers: Offers, n: nat, events: seq<Event>)
    requires OffersOk(offers)
    ensures Inv(offers, Exec(offers, Init(n), events))
  {
    ExecKeepsInv(offers, Init(n), events);
  }
}
