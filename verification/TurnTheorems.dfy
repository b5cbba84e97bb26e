/** What the turn protocol guarantees, over every interleaving of any number of coordinators, each with
    the stored plan or one of its own. */
module TurnTheorems {
  import opened Identity
  import opened Dtx
  import opened Plans
  import opened Schedules
  import opened TurnProtocol

  const NO_TABLES := Db(map[], map[], map[], [])

  function CountAid(charges: seq<ChargeRow>, a: Aid): nat {
    if charges == [] then 0
    else CountAid(charges[..|charges| - 1], a) + if charges[|charges| - 1].aid == a then 1 else 0
  }

  lemma {:induction false} CountInPlan(charges: seq<ChargeRow>, a: Aid)
    ensures CountAid(charges, a) == CountAid(ChargesOf(charges, KeyOf(a), a.commitId.plan), a)
  {
    if charges != [] {
      var init, last := charges[..|charges| - 1], charges[|charges| - 1];
      CountInPlan(init, a);
      var kept := ChargesOf(init, KeyOf(a), a.commitId.plan);
      if IsOf(last.aid, KeyOf(a), a.commitId.plan) {
        assert (kept + [last])[..|kept|] == kept;
      } else {
        assert kept + [] == kept;
      }
    }
  }

  lemma {:induction false} CountInPrefix(k: TurnKey, plan: Plan, n: nat, a: Aid)
    requires DistinctOrdinals(plan) && n <= |plan|
    ensures CountAid(PlanCharges(k, plan)[..n], a) == if exists i :: 0 <= i < n && AidAt(k, plan, i) == a then 1 else 0
  {
    if n > 0 {
      var rows := PlanCharges(k, plan)[..n];
      assert rows[..n - 1] == PlanCharges(k, plan)[..n - 1];
      CountInPrefix(k, plan, n - 1, a);
      AidsDistinct(k, plan);
      assert rows[n - 1].aid == AidAt(k, plan, n - 1);
    }
  }

  lemma {:induction false} CountsNone(charges: seq<ChargeRow>, a: Aid)
    ensures CountAid(charges, a) == 0 <==> forall r :: r in charges ==> r.aid != a
  {
    if charges != [] {
      var init, last := charges[..|charges| - 1], charges[|charges| - 1];
      CountsNone(init, a);
      assert charges == init + [last];
    }
  }

  /** Plans that nobody was offered have no rows. */
  lemma OnlyOfferedPlans(offers: Offers, db: Db, k: TurnKey, plan: Plan)
    requires DbOk(offers, db) && Progress(db, k, plan) > 0
    ensures Offered(offers, k, plan)
  {
    assert PlanOk(db, k, plan);
    assert InPlan(offers, AidAt(k, plan, 0));
  }

  /** EXACTLY ONCE: an action id has one charge row if it has an action row, and none otherwise. */
  lemma ExactlyOnce(offers: Offers, n: nat, events: seq<Event>, a: Aid)
    requires OffersOk(offers)
    ensures var db := Exec(offers, Init(n), events).db;
            CountAid(db.charges, a) == if a in db.actions then 1 else 0
  {
    Reachable(offers, n, events);
    var db, k, plan := Exec(offers, Init(n), events).db, KeyOf(a), a.commitId.plan;
    CountInPlan(db.charges, a);
    assert PlanOk(db, k, plan);
    if Progress(db, k, plan) > 0 {
      OnlyOfferedPlans(offers, db, k, plan);
      CountInPrefix(k, plan, Progress(db, k, plan), a);
    }
    if a in db.actions {
      assert InPlan(offers, a);
    }
  }

  /** PREFIX: for every turn and every plan, whether or not others ran other plans of the same turn, the
      charges made for that plan are in order those of a prefix of it, repeated entries included, and its
      action rows are exactly the ids of that prefix. */
  lemma ChargesArePlanPrefix(offers: Offers, n: nat, events: seq<Event>, k: TurnKey, plan: Plan)
    requires OffersOk(offers)
    ensures var db := Exec(offers, Init(n), events).db;
            var done := Progress(db, k, plan);
            && done <= |plan| && (done > 0 ==> Offered(offers, k, plan))
            && ChargesOf(db.charges, k, plan) == PlanCharges(k, plan)[..done]
            && forall a :: a in db.actions && IsOf(a, k, plan) <==> exists i :: 0 <= i < done && a == AidAt(k, plan, i)
  {
    Reachable(offers, n, events);
    var db := Exec(offers, Init(n), events).db;
    assert PlanOk(db, k, plan);
    forall a | a in db.actions && IsOf(a, k, plan)
      ensures exists i :: 0 <= i < Progress(db, k, plan) && a == AidAt(k, plan, i)
    {
      assert InPlan(offers, a);
    }
    if Progress(db, k, plan) > 0 {
      OnlyOfferedPlans(offers, db, k, plan);
    }
  }

  /** With one plan offered for a turn, every row of the turn is a row of that plan. */
  lemma OnePlanPerTurn(offers: Offers, n: nat, events: seq<Event>, k: TurnKey, plan: Plan)
    requires OffersOk(offers) && k in offers && offers[k] == {plan}
    ensures var db := Exec(offers, Init(n), events).db;
            && (forall a :: a in db.actions && KeyOf(a) == k ==> IsOf(a, k, plan))
            && (forall r :: r in db.charges && KeyOf(r.aid) == k ==> IsOf(r.aid, k, plan))
            && (k in db.turns ==> db.turns[k].plan == plan)
  {
    Reachable(offers, n, events);
    var db := Exec(offers, Init(n), events).db;
    forall a | a in db.actions && KeyOf(a) == k ensures IsOf(a, k, plan) {
      assert InPlan(offers, a);
    }
    forall r | r in db.charges && KeyOf(r.aid) == k ensures IsOf(r.aid, k, plan) {
      CountsNone(db.charges, r.aid);
      ExactlyOnce(offers, n, events, r.aid);
    }
    if k in db.turns {
      assert StoredOk(offers, db, k);
    }
  }

  /** The whole of a plan is there, with epochs that never go back along it. */
  ghost predicate WhollyCharged(db: Db, k: TurnKey, plan: Plan) {
    && ChargesOf(db.charges, k, plan) == PlanCharges(k, plan)
    && (forall i :: 0 <= i < |plan| ==> AidAt(k, plan, i) in db.actions)
    && forall i, j :: 0 <= i < j < |plan| ==>
         db.actions[AidAt(k, plan, i)].ownerEpoch <= db.actions[AidAt(k, plan, j)].ownerEpoch
  }

  /** The turn commit is not fenced, yet a committed turn has one of the plans offered for it as a whole.
      If only one was offered, that is the stored one. */
  lemma TurnCommitIsSound(offers: Offers, n: nat, events: seq<Event>, k: TurnKey) returns (plan: Plan)
    requires OffersOk(offers)
    requires k in Exec(offers, Init(n), events).db.turns && Exec(offers, Init(n), events).db.turns[k].committed
    ensures var db := Exec(offers, Init(n), events).db;
            && Offered(offers, k, plan) && Offered(offers, k, db.turns[k].plan)
            && WhollyCharged(db, k, plan)
            && (|offers[k]| == 1 ==> plan == db.turns[k].plan)
  {
    Reachable(offers, n, events);
    var db := Exec(offers, Init(n), events).db;
    plan :| Complete(offers, db, k, plan);
    assert PlanOk(db, k, plan) && StoredOk(offers, db, k);
    assert PlanCharges(k, plan)[..|plan|] == PlanCharges(k, plan);
    if |offers[k]| == 1 {
      var rest := offers[k] - {plan};
      assert |rest| == 0;
      assert db.turns[k].plan !in rest;
    }
  }

  /** DURABLE PLAN: what a recovery loads is the first plan begun, after any run. */
  lemma {:induction false} PlanIsDurable(offers: Offers, s: State, events: seq<Event>, k: TurnKey)
    requires LoadDb(s.db, k).Some?
    ensures LoadDb(Exec(offers, s, events).db, k) == LoadDb(s.db, k)
    decreases |events|
  {
    if events != [] {
      StepKeepsPlan(offers, s, events[0], k);
      PlanIsDurable(offers, Step(offers, s, events[0]), events[1..], k);
    }
  }

  lemma StepKeepsPlan(offers: Offers, s: State, event: Event, k: TurnKey)
    requires LoadDb(s.db, k).Some?
    ensures LoadDb(Step(offers, s, event).db, k) == LoadDb(s.db, k)
  {
  }

  /** `load_plan` after any run that followed `begin_turn`. */
  lemma BegunPlanIsLoaded(offers: Offers, s: State, k: TurnKey, plan: Plan, events: seq<Event>)
    requires Offered(offers, k, plan)
    ensures var loaded := LoadDb(Exec(offers, Step(offers, s, Begin(k, plan)), events).db, k);
            loaded == if LoadDb(s.db, k).Some? then LoadDb(s.db, k) else Some((CommitIdOf(plan), plan))
  {
    PlanIsDurable(offers, Step(offers, s, Begin(k, plan)), events, k);
  }

  /** The effect of one event on the tables: a claim by the holder of the newest epoch of its turn,
      or no change to actions and charges. */
  ghost predicate ClaimsNext(s: State, event: Event, s': State) {
    && event.Run? && event.who < |s.coords|
    && var c := s.coords[event.who];
       && c.Working? && |c.results| < |c.plan|
       && c.epoch == OwnerOf(s.db, c.key)
       && c.commitId == CommitIdOf(c.plan)
       && AidAt(c.key, c.plan, |c.results|) !in s.db.actions
       && c.plan[|c.results|].args.ChargeArgs?
       && s'.db == Claim(s.db, c.key, c.plan, |c.results|, c.epoch)
  }

  lemma StepEffect(offers: Offers, s: State, event: Event)
    requires OffersOk(offers) && Inv(offers, s)
    ensures var s' := Step(offers, s, event);
            ClaimsNext(s, event, s') || (s'.db.actions == s.db.actions && s'.db.charges == s.db.charges)
  {
    if (event.Run? || event.DieInCharge?) && event.who < |s.coords| && s.coords[event.who].Working? {
      var c := s.coords[event.who];
      assert CoordOk(offers, s.db, c);
      if |c.results| < |c.plan| {
        ChargeEffect(offers, s.db, c, event.DieInCharge?);
        hide ChargeTx, DbOk, CoordOk, Progress;
      }
    }
  }

  /** Only an acquire changes an epoch, and begun turns stay begun. */
  lemma OwnersMove(offers: Offers, s: State, event: Event, k: TurnKey)
    ensures var s' := Step(offers, s, event);
            && OwnerOf(s.db, k) <= OwnerOf(s'.db, k)
            && (OwnerOf(s'.db, k) != OwnerOf(s.db, k) ==> event.Acquire? && event.key == k)
            && (k in s.db.turns ==> k in s'.db.turns)
  {
  }

  /** FENCING: rows are never changed or removed, and what a step adds is one action and its charge,
      added by the holder of the newest epoch of that turn, which is the epoch recorded. */
  lemma OnlyTheOwnerCharges(offers: Offers, n: nat, events: seq<Event>, event: Event)
    requires OffersOk(offers)
    ensures var s := Exec(offers, Init(n), events);
            var s' := Step(offers, s, event);
            && (forall a :: a in s.db.actions ==> a in s'.db.actions && s'.db.actions[a] == s.db.actions[a])
            && s.db.charges <= s'.db.charges
            && (s'.db.charges != s.db.charges || s'.db.actions != s.db.actions ==> ClaimsNext(s, event, s'))
  {
    Reachable(offers, n, events);
    StepEffect(offers, Exec(offers, Init(n), events), event);
    hide Step, Inv;
  }

  // ---- convergent recovery ----

  /** `who` holds the newest epoch of turn `k`, is on the stored plan, and has not been stopped. */
  ghost predicate Leads(s: State, who: nat, k: TurnKey, plan: Plan) {
    && who < |s.coords| && LoadDb(s.db, k) == Some((CommitIdOf(plan), plan))
    && var c := s.coords[who];
       && (c.Acquired? || (c.Working? && c.plan == plan) || (c.Finished? && c.plan == plan))
       && c.Holds(k, OwnerOf(s.db, k))
  }

  /** Everything may happen except a newer owner of `k`, the death of `who`, and `who` bringing another plan. */
  predicate Undisturbed(event: Event, who: nat, k: TurnKey, plan: Plan) {
    match event
    case Acquire(_, k') => k' != k
    case DieInCharge(w) => w != who
    case Exit(w) => w != who
    case RunWithPlan(w, p) => w != who || p == plan
    case _ => true
  }

  /** How many actions of its program a leader still has to perform. */
  function Remaining(c: Coord, plan: Plan): nat {
    match c
    case Acquired(_, _) => |plan| + 2
    case Working(_, _, _, _, results) => if |results| <= |plan| then |plan| - |results| + 1 else 0
    case _ => 0
  }

  lemma LeadRunsNext(offers: Offers, s: State, who: nat, k: TurnKey, plan: Plan)
    requires OffersOk(offers) && Inv(offers, s) && Leads(s, who, k, plan) && AllCharges(plan)
    ensures var s' := Step(offers, s, Run(who));
            && Leads(s', who, k, plan)
            && (Remaining(s.coords[who], plan) > 0 ==> Remaining(s'.coords[who], plan) < Remaining(s.coords[who], plan))
  {
    var c := s.coords[who];
    assert CoordOk(offers, s.db, c);
    OwnersMove(offers, s, Run(who), k);
    StepKeepsPlan(offers, s, Run(who), k);
    if c.Working? && |c.results| < |c.plan| {
      ChargeEffect(offers, s.db, c, false);
      hide ChargeTx, DbOk, CoordOk, OneHolderPerEpoch;
    }
  }

  lemma LeadKept(offers: Offers, s: State, event: Event, who: nat, k: TurnKey, plan: Plan)
    requires OffersOk(offers) && Inv(offers, s) && Leads(s, who, k, plan) && AllCharges(plan)
    requires Undisturbed(event, who, k, plan)
    ensures var s' := Step(offers, s, event);
            && Leads(s', who, k, plan)
            && Remaining(s'.coords[who], plan) <= Remaining(s.coords[who], plan)
            && (event == Run(who) && Remaining(s.coords[who], plan) > 0 ==>
                  Remaining(s'.coords[who], plan) < Remaining(s.coords[who], plan))
  {
    OwnersMove(offers, s, event, k);
    StepKeepsPlan(offers, s, event, k);
    if event == Run(who) {
      LeadRunsNext(offers, s, who, k, plan);
      hide Step, Inv;
    } else if event.RunWithPlan? && event.who == who {
      assert CoordOk(offers, s.db, s.coords[who]);
    } else {
      hide Inv, LoadDb;
      assert Step(offers, s, event).coords[who] == s.coords[who];
    }
  }

  lemma {:induction false} LeadRuns(offers: Offers, s: State, events: seq<Event>, who: nat, k: TurnKey, plan: Plan)
    requires OffersOk(offers) && Inv(offers, s) && Leads(s, who, k, plan) && AllCharges(plan)
    requires forall e :: e in events ==> Undisturbed(e, who, k, plan)
    ensures var s' := Exec(offers, s, events);
            && Inv(offers, s') && Leads(s', who, k, plan)
            && (Remaining(s'.coords[who], plan) == 0
                || Remaining(s'.coords[who], plan) + Count(events, Run(who)) <= Remaining(s.coords[who], plan))
    decreases |events|
  {
    if events != [] {
      hide Inv, Leads, Step;
      StepKeepsInv(offers, s, events[0]);
      LeadKept(offers, s, events[0], who, k, plan);
      LeadRuns(offers, Step(offers, s, events[0]), events[1..], who, k, plan);
    }
  }

  /** CONVERGENCE: from any reachable state, a fresh process that acquires a begun turn is never fenced
      and never sees a mismatch while nobody acquires after it, and once it has performed the actions
      of its program, in any interleaving with the others and whatever plans they run, the turn is
      committed with exactly the charges of a crash-free run of the stored plan and the process holds
      the results of such a run. */
  lemma ConvergentRecovery(offers: Offers, n: nat, before: seq<Event>, who: nat, k: TurnKey, during: seq<Event>)
    requires OffersOk(offers) && who < n
    requires Exec(offers, Init(n), before).coords[who].Down? && k in Exec(offers, Init(n), before).db.turns
    requires var plan := Exec(offers, Init(n), before).db.turns[k].plan;
             AllCharges(plan) && forall e :: e in during ==> Undisturbed(e, who, k, plan)
    ensures var s0 := Exec(offers, Init(n), before);
            var plan, s := s0.db.turns[k].plan, Exec(offers, Step(offers, s0, Acquire(who, k)), during);
            && Leads(s, who, k, plan)
            && (Count(during, Run(who)) >= |plan| + 2 ==>
                  && s.coords[who].Finished?
                  && ResultsOk(plan, s.coords[who].results) && |s.coords[who].results| == |plan|
                  && s.db.turns[k].committed
                  && WhollyCharged(s.db, k, plan))
  {
    var s0 := Exec(offers, Init(n), before);
    var plan := s0.db.turns[k].plan;
    Reachable(offers, n, before);
    assert StoredOk(offers, s0.db, k);
    var s1 := Step(offers, s0, Acquire(who, k));
    StepKeepsInv(offers, s0, Acquire(who, k));
    LeadRuns(offers, s1, during, who, k, plan);
    var s := Exec(offers, s1, during);
    assert CoordOk(offers, s.db, s.coords[who]);
    assert PlanOk(s.db, k, plan);
    assert PlanCharges(k, plan)[..|plan|] == PlanCharges(k, plan);
    hide Inv, Step, PlanOk;
  }

  // ---- the sequential run ----

  /** How a coordinator ends up when its pass over the plan ends in a given way. */
  ghost predicate EndsAs(c: Coord, c': Coord, r: RunResult)
    requires c.Working?
  {
    match r
    case Returned(results) => c' == Finished(c.key, c.epoch, c.plan, results)
    case Raised(StaleOwner) => c'.Fenced? && c'.Holds(c.key, c.epoch)
    case Raised(Crashed) => c'.Down?
    case Raised(_) => c' == Failed
    case NoPlan => false
  }

  /** `run_turn` is the schedule in which one process performs its whole program undisturbed, dying inside the
      charge it is told to die in unless that charge turns out to be a duplicate. */
  lemma {:induction false} RunTurnIsSchedule(offers: Offers, s: State, who: nat, crashAt: Option<int>)
    returns (events: seq<Event>)
    requires who < |s.coords| && s.coords[who].Working? && |s.coords[who].results| <= |s.coords[who].plan|
    ensures forall e :: e in events ==> e == Run(who) || (crashAt.Some? && e == DieInCharge(who))
    ensures var c := s.coords[who];
            var (db', r) := RunSteps(s.db, c.key, c.commitId, c.plan[|c.results|..], c.epoch, crashAt, c.results);
            var s' := Exec(offers, s, events);
            s'.db == db' && EndsAs(c, s'.coords[who], r)
    decreases |s.coords[who].plan| - |s.coords[who].results|
  {
    hide Step, ChargeTx, NextEvent;
    var c := s.coords[who];
    var next := NextEvent(c, who, crashAt);
    var s1 := Step(offers, s, next);
    events := [next];
    assert Exec(offers, s, [next]) == Exec(offers, s1, []) == s1;
    if |c.results| == |c.plan| {
      LastStepCommits(offers, s, who, crashAt);
      assert c.plan[|c.results|..] == [];
    } else {
      assert c.plan[|c.results|..][0] == c.plan[|c.results|];
      assert c.plan[|c.results|..][1..] == c.plan[|c.results| + 1..];
      NextStepIsCharge(offers, s, who, crashAt);
      if s1.coords[who].Working? {
        var rest := RunTurnIsSchedule(offers, s1, who, crashAt);
        events := [next] + rest;
        assert events[1..] == rest;
        assert Exec(offers, s, events) == Exec(offers, s1, rest);
      } else {
        var step := c.plan[|c.results|];
        assert ChargeTx(s.db, c.key, c.commitId, step, c.epoch, crashAt == Some(step.ordinal)).1.Raised();
      }
    }
  }

  lemma LastStepCommits(offers: Offers, s: State, who: nat, crashAt: Option<int>)
    requires who < |s.coords| && s.coords[who].Working? && |s.coords[who].results| == |s.coords[who].plan|
    ensures var c := s.coords[who];
            Step(offers, s, NextEvent(c, who, crashAt)) ==
              Put(s, CommitTurnDb(s.db, c.key), who, Finished(c.key, c.epoch, c.plan, c.results))
  {
  }

  function NextEvent(c: Coord, who: nat, crashAt: Option<int>): (e: Event)
    requires c.Working?
    ensures e == Run(who) || (crashAt.Some? && e == DieInCharge(who))
  {
    if |c.results| < |c.plan| && crashAt == Some(c.plan[|c.results|].ordinal) then DieInCharge(who) else Run(who)
  }

  lemma NextStepIsCharge(offers: Offers, s: State, who: nat, crashAt: Option<int>)
    requires who < |s.coords| && s.coords[who].Working? && |s.coords[who].results| < |s.coords[who].plan|
    ensures var c := s.coords[who];
            var step := c.plan[|c.results|];
            var (db', outcome) := ChargeTx(s.db, c.key, c.commitId, step, c.epoch, crashAt == Some(step.ordinal));
            Step(offers, s, NextEvent(c, who, crashAt)) == Put(s, db', who, AfterCharge(c, outcome))
  {
    hide ChargeTx, AfterCharge;
  }

  ghost predicate Unclaimed(db: Db, k: TurnKey, plan: Plan, from: nat) {
    forall i :: from <= i < |plan| ==> AidAt(k, plan, i) !in db.actions
  }

  ghost predicate DistinctFrom(plan: Plan, from: nat) {
    forall i, j :: from <= i < j < |plan| ==> plan[i].ordinal != plan[j].ordinal
  }

  ghost predicate ChargesFrom(plan: Plan, from: nat) {
    forall i :: from <= i < |plan| ==> plan[i].args.ChargeArgs?
  }

  lemma FreshHead(db: Db, db1: Db, k: TurnKey, plan: Plan, from: nat)
    requires from < |plan| && AidAt(k, plan, from) !in db.actions
    requires db1.actions.Keys == db.actions.Keys + {AidAt(k, plan, from)}
    requires DistinctFrom(plan, from + 1) && Unclaimed(db1, k, plan, from + 1)
    ensures DistinctFrom(plan, from) && Unclaimed(db, k, plan, from)
  {
    forall i | from < i < |plan| ensures plan[i].ordinal != plan[from].ordinal {
      assert AidAt(k, plan, i) !in db1.actions;
    }
  }

  lemma HeadIsClaimed(db: Db, k: TurnKey, plan: Plan, from: nat, epoch: nat)
    requires from < |plan| && k in db.owner && db.owner[k] == epoch
    requires DistinctFrom(plan, from) && Unclaimed(db, k, plan, from) && ChargesFrom(plan, from)
    ensures var (db1, outcome) := ChargeTx(db, k, CommitIdOf(plan), plan[from], epoch, false);
            && outcome.Committed? && db1.owner == db.owner
            && db1.charges == db.charges + [PlanCharges(k, plan)[from]]
            && DistinctFrom(plan, from + 1) && Unclaimed(db1, k, plan, from + 1) && ChargesFrom(plan, from + 1)
  {
    var (db1, outcome) := ChargeTx(db, k, CommitIdOf(plan), plan[from], epoch, false);
    assert AidAt(k, plan, from) !in db.actions;
    forall i | from < i < |plan| ensures AidAt(k, plan, i) !in db1.actions {
      assert plan[i].ordinal != plan[from].ordinal;
    }
  }

  /** Fresh, pairwise different ids of charges: a sequential run charges every remaining step. */
  lemma {:induction false} RunStepsAll(db: Db, k: TurnKey, plan: Plan, from: nat, epoch: nat, done: seq<Outcome>)
    requires from <= |plan| && k in db.owner && db.owner[k] == epoch
    requires DistinctFrom(plan, from) && Unclaimed(db, k, plan, from) && ChargesFrom(plan, from)
    ensures var (db', r) := RunSteps(db, k, CommitIdOf(plan), plan[from..], epoch, None, done);
            r.Returned? && db'.charges == db.charges + PlanCharges(k, plan)[from..]
    decreases |plan| - from
  {
    if from == |plan| {
      assert PlanCharges(k, plan)[from..] == [];
    } else {
      assert plan[from..][0] == plan[from] && plan[from..][1..] == plan[from + 1..];
      var (db1, outcome) := ChargeTx(db, k, CommitIdOf(plan), plan[from], epoch, false);
      HeadIsClaimed(db, k, plan, from, epoch);
      hide ChargeTx, Unclaimed, DistinctFrom, ChargesFrom;
      RunStepsAll(db1, k, plan, from + 1, epoch, done + [outcome]);
      assert PlanCharges(k, plan)[from..] == [PlanCharges(k, plan)[from]] + PlanCharges(k, plan)[from + 1..];
    }
  }

  /** Otherwise it charges fewer rows than it has steps. */
  lemma {:induction false} RunStepsFewer(db: Db, k: TurnKey, plan: Plan, from: nat, epoch: nat, done: seq<Outcome>)
    requires from <= |plan|
    ensures var (db', _) := RunSteps(db, k, CommitIdOf(plan), plan[from..], epoch, None, done);
            && |db'.charges| - |db.charges| <= |plan| - from
            && (|db'.charges| - |db.charges| == |plan| - from ==>
                  DistinctFrom(plan, from) && Unclaimed(db, k, plan, from) && ChargesFrom(plan, from))
    decreases |plan| - from
  {
    if from < |plan| {
      assert plan[from..][0] == plan[from] && plan[from..][1..] == plan[from + 1..];
      var (db1, outcome) := ChargeTx(db, k, CommitIdOf(plan), plan[from], epoch, false);
      if !outcome.Raised() {
        RunStepsFewer(db1, k, plan, from + 1, epoch, done + [outcome]);
        if outcome.Committed? && DistinctFrom(plan, from + 1) && Unclaimed(db1, k, plan, from + 1) {
          FreshHead(db, db1, k, plan, from);
        }
      }
    }
  }

  /** The assumption on plans is exact: a crash-free run of a fresh turn charges its whole plan if and
      only if its steps are charges with pairwise different ordinals. */
  lemma FreshRunChargesPlan(k: TurnKey, plan: Plan)
    ensures var (db', r) := RunTurnDb(NO_TABLES, k, Some(plan), None, None);
            r.Returned? && db'.charges == PlanCharges(k, plan) <==> DistinctOrdinals(plan) && AllCharges(plan)
  {
    var begun := BeginDb(AcquireDb(NO_TABLES, k), k, plan);
    assert plan[0..] == plan && PlanCharges(k, plan)[0..] == PlanCharges(k, plan);
    RunStepsFewer(begun, k, plan, 0, 1, []);
    if DistinctOrdinals(plan) && AllCharges(plan) {
      RunStepsAll(begun, k, plan, 0, 1, []);
    }
    assert [] + PlanCharges(k, plan) == PlanCharges(k, plan);
  }

  // ---- a turn with two plans ----

  /** A run claims ids of its own commit id only, leaves rows that exist alone, keeps the stored plan and,
      if it returns, has every id of its plan and marks the turn committed. */
  lemma {:induction false} RunStepsClaims(db: Db, k: TurnKey, plan: Plan, from: nat, epoch: nat, done: seq<Outcome>)
    requires from <= |plan| && k in db.turns
    ensures var (db', r) := RunSteps(db, k, CommitIdOf(plan), plan[from..], epoch, None, done);
            && db'.owner == db.owner
            && k in db'.turns && db'.turns[k].plan == db.turns[k].plan
            && (forall a :: a in db.actions ==> a in db'.actions && db'.actions[a] == db.actions[a])
            && (forall a :: a in db'.actions && a !in db.actions ==> a.commitId == CommitIdOf(plan))
            && (r.Returned? ==> db'.turns[k].committed)
            && (r.Returned? ==> forall i :: from <= i < |plan| ==>
                 && AidAt(k, plan, i) in db'.actions
                 && db'.actions[AidAt(k, plan, i)].argsFp == FingerprintOf(plan[i].args))
    decreases |plan| - from
  {
    if from < |plan| {
      assert plan[from..][0] == plan[from] && plan[from..][1..] == plan[from + 1..];
      var (db1, outcome) := ChargeTx(db, k, CommitIdOf(plan), plan[from], epoch, false);
      if !outcome.Raised() {
        RunStepsClaims(db1, k, plan, from + 1, epoch, done + [outcome]);
      }
    }
  }

  ghost predicate AllClaimed(db: Db, k: TurnKey, plan: Plan) {
    forall i :: 0 <= i < |plan| ==> AidAt(k, plan, i) in db.actions
  }

  /** A COMMITTED TURN CAN LACK ITS STORED PLAN: from any tables, a run that brings a plan of its own to a begun turn,
      and returns, marks the turn committed and leaves the stored plan stored; that plan is then complete if and only
      if it is the one brought or was complete before. */
  lemma CommittedIsCompleteIff(db: Db, k: TurnKey, again: Plan)
    requires k in db.turns
    ensures var plan := db.turns[k].plan;
            var (db', r) := RunTurnDb(db, k, Some(again), None, None);
            && k in db'.turns && db'.turns[k].plan == plan
            && (r.Returned? ==>
                 db'.turns[k].committed && (AllClaimed(db', k, plan) <==> again == plan || AllClaimed(db, k, plan)))
  {
    var owned := AcquireDb(db, k);
    assert BeginDb(owned, k, again) == owned;
    assert again[0..] == again;
    RunStepsClaims(owned, k, again, 0, OwnerOf(owned, k), []);
  }

  /** On a turn that was begun but never run: complete if and only if the plan brought is the stored one, or there is
      nothing to complete. */
  lemma FreshlyCommittedIsCompleteIff(k: TurnKey, plan: Plan, again: Plan)
    ensures var (db, r) := RunTurnDb(BeginDb(NO_TABLES, k, plan), k, Some(again), None, None);
            && k in db.turns
            && (r.Returned? ==> db.turns[k].committed && (AllClaimed(db, k, plan) <==> again == plan || plan == []))
            && (DistinctOrdinals(again) && AllCharges(again) ==> r.Returned?)
  {
    var begun := BeginDb(NO_TABLES, k, plan);
    CommittedIsCompleteIff(begun, k, again);
    if DistinctOrdinals(again) {
      RunChargesMissing(begun, k, again);
    }
    assert plan != [] ==> AidAt(k, plan, 0) !in begun.actions;
  }

  // ---- what a run adds to any tables ----

  /** The charges of a plan that are not there yet, in plan order. */
  function Missing(db: Db, k: TurnKey, plan: Plan, from: nat): seq<ChargeRow>
    requires from <= |plan|
    decreases |plan| - from
  {
    if from == |plan| then []
    else
      (if AidAt(k, plan, from) in db.actions then [] else [PlanCharges(k, plan)[from]]) + Missing(db, k, plan, from + 1)
  }

  /** A step whose row is there was claimed with the same arguments; one whose row is not is a charge. */
  predicate StepRunnable(db: Db, k: TurnKey, plan: Plan, i: nat)
    requires i < |plan|
  {
    var a := AidAt(k, plan, i);
    if a in db.actions then db.actions[a].argsFp == FingerprintOf(plan[i].args) else plan[i].args.ChargeArgs?
  }

  ghost predicate Runnable(db: Db, k: TurnKey, plan: Plan, from: nat) {
    forall i :: from <= i < |plan| ==> StepRunnable(db, k, plan, i)
  }

  /** Claiming one step changes nothing for the later ones. */
  lemma {:induction false} MissingKept(db: Db, db': Db, k: TurnKey, plan: Plan, from: nat)
    requires from <= |plan|
    requires forall i :: from <= i < |plan| ==> (AidAt(k, plan, i) in db.actions <==> AidAt(k, plan, i) in db'.actions)
    ensures Missing(db, k, plan, from) == Missing(db', k, plan, from)
    decreases |plan| - from
  {
    if from < |plan| {
      MissingKept(db, db', k, plan, from + 1);
    }
  }

  /** The head of a run: charged if missing, passed over if there, refused if not runnable. */
  lemma HeadOfRun(db: Db, k: TurnKey, plan: Plan, from: nat, epoch: nat)
    requires from < |plan| && k in db.owner && db.owner[k] == epoch && DistinctFrom(plan, from)
    ensures var (db1, outcome) := ChargeTx(db, k, CommitIdOf(plan), plan[from], epoch, false);
            && (outcome.Raised() <==> !StepRunnable(db, k, plan, from))
            && (!outcome.Raised() ==>
                 && db1.owner == db.owner
                 && db1.charges ==
                      db.charges + (if AidAt(k, plan, from) in db.actions then [] else [PlanCharges(k, plan)[from]])
                 && (Runnable(db1, k, plan, from + 1) <==> Runnable(db, k, plan, from + 1))
                 && Missing(db1, k, plan, from + 1) == Missing(db, k, plan, from + 1))
  {
    var (db1, outcome) := ChargeTx(db, k, CommitIdOf(plan), plan[from], epoch, false);
    if !outcome.Raised() {
      forall i | from < i < |plan|
        ensures AidAt(k, plan, i) in db.actions <==> AidAt(k, plan, i) in db1.actions
        ensures StepRunnable(db1, k, plan, i) <==> StepRunnable(db, k, plan, i)
      {
        assert plan[i].ordinal != plan[from].ordinal;
      }
      MissingKept(db, db1, k, plan, from + 1);
    }
  }

  lemma {:induction false} RunStepsMissing(db: Db, k: TurnKey, plan: Plan, from: nat, epoch: nat, done: seq<Outcome>)
    requires from <= |plan| && k in db.owner && db.owner[k] == epoch && DistinctFrom(plan, from)
    ensures var (db', r) := RunSteps(db, k, CommitIdOf(plan), plan[from..], epoch, None, done);
            && (r.Returned? <==> Runnable(db, k, plan, from))
            && (r.Returned? ==> db'.charges == db.charges + Missing(db, k, plan, from))
    decreases |plan| - from
  {
    if from < |plan| {
      assert plan[from..][0] == plan[from] && plan[from..][1..] == plan[from + 1..];
      HeadOfRun(db, k, plan, from, epoch);
      hide ChargeTx, StepRunnable;
      var (db1, outcome) := ChargeTx(db, k, CommitIdOf(plan), plan[from], epoch, false);
      if !outcome.Raised() {
        RunStepsMissing(db1, k, plan, from + 1, epoch, done + [outcome]);
      }
    }
  }

  /** A RUN ADDS WHAT IS MISSING: from any tables, a crash-free run with a plan of the caller's returns if and only if
      every step there was claimed with the same arguments and every other is a charge, and then it charges exactly
      the missing steps of that plan, in order. */
  lemma RunChargesMissing(db: Db, k: TurnKey, again: Plan)
    requires DistinctOrdinals(again)
    ensures var (db', r) := RunTurnDb(db, k, Some(again), None, None);
            && (r.Returned? <==> Runnable(db, k, again, 0))
            && (r.Returned? ==> db'.charges == db.charges + Missing(db, k, again, 0))
  {
    var begun := BeginDb(AcquireDb(db, k), k, again);
    assert again[0..] == again;
    RunStepsMissing(begun, k, again, 0, OwnerOf(begun, k), []);
    MissingKept(db, begun, k, again, 0);
    assert forall i :: 0 <= i < |again| ==> (StepRunnable(begun, k, again, i) <==> StepRunnable(db, k, again, i));
  }

  /** RUNNING A TURN AGAIN, from any tables, with a plan of the caller's: the same plan charges nothing more, any
      other plan charges whatever of it was missing before the first run, because `begin_turn` keeps the stored plan
      but hands back the commit id of its argument. */
  lemma SecondRunCharges(db: Db, k: TurnKey, plan: Plan, again: Plan)
    requires DistinctOrdinals(again)
    requires RunTurnDb(db, k, Some(plan), None, None).1.Returned?
    ensures var first := RunTurnDb(db, k, Some(plan), None, None).0;
            var (second, r) := RunTurnDb(first, k, Some(again), None, None);
            && (again == plan ==> r.Returned? && second.charges == first.charges)
            && (again != plan ==>
                 && (r.Returned? <==> Runnable(db, k, again, 0))
                 && (r.Returned? ==> second.charges == first.charges + Missing(db, k, again, 0)))
  {
    var begun := BeginDb(AcquireDb(db, k), k, plan);
    assert plan[0..] == plan;
    RunStepsClaims(begun, k, plan, 0, OwnerOf(begun, k), []);
    var first := RunTurnDb(db, k, Some(plan), None, None).0;
    hide RunTurnDb, RunSteps;
    RunChargesMissing(first, k, again);
    if again == plan {
      MissingNone(first, k, plan, 0);
    } else {
      assert forall i :: 0 <= i < |again| ==>
          (AidAt(k, again, i) in first.actions <==> AidAt(k, again, i) in db.actions);
      MissingKept(db, first, k, again, 0);
      assert forall i :: 0 <= i < |again| ==> (StepRunnable(first, k, again, i) <==> StepRunnable(db, k, again, i));
    }
  }

  lemma {:induction false} MissingNone(db: Db, k: TurnKey, plan: Plan, from: nat)
    requires from <= |plan| && AllClaimed(db, k, plan)
    ensures Missing(db, k, plan, from) == []
    decreases |plan| - from
  {
    if from < |plan| {
      MissingNone(db, k, plan, from + 1);
    }
  }

  lemma {:induction false} MissingIsSuffix(db: Db, k: TurnKey, plan: Plan, from: nat)
    requires from <= |plan| && PlanOk(db, k, plan)
    ensures var n := Progress(db, k, plan);
            Missing(db, k, plan, from) == PlanCharges(k, plan)[if from < n then n else from..]
    decreases |plan| - from
  {
    var n := Progress(db, k, plan);
    if from < |plan| {
      MissingIsSuffix(db, k, plan, from + 1);
      if n <= from {
        assert PlanCharges(k, plan)[from..] == [PlanCharges(k, plan)[from]] + PlanCharges(k, plan)[from + 1..];
      }
    }
  }

  /** RECOVERY ADDS THE REST: in any reachable state, whatever ran before and with whatever plans, a crash-free run of
      any plan charges exactly the rows its plan still lacks, and returns if and only if those are charges. */
  lemma RecoveryChargesTheRest(offers: Offers, n: nat, events: seq<Event>, k: TurnKey, plan: Plan)
    requires OffersOk(offers) && DistinctOrdinals(plan)
    ensures var db := Exec(offers, Init(n), events).db;
            var done := Progress(db, k, plan);
            var (db', r) := RunTurnDb(db, k, Some(plan), None, None);
            && done <= |plan|
            && (r.Returned? <==> ChargesFrom(plan, done))
            && (r.Returned? ==> db'.charges == db.charges + PlanCharges(k, plan)[done..])
  {
    Reachable(offers, n, events);
    var db := Exec(offers, Init(n), events).db;
    assert PlanOk(db, k, plan);
    RunChargesMissing(db, k, plan);
    MissingIsSuffix(db, k, plan, 0);
    var done := Progress(db, k, plan);
    hide Inv, RunTurnDb;
    forall i | 0 <= i < |plan| ensures StepRunnable(db, k, plan, i) <==> i < done || plan[i].args.ChargeArgs? {
      assert i < done ==> RowOk(db, k, plan, i);
    }
  }
}
