/** The turn protocol, seen through any one action of any one turn, is the transactional class of the
    abstract protocol. */
module Simulation {
  import opened Identity
  import opened Dtx
  import opened Plans
  import opened TurnProtocol
  import opened TurnTheorems
  import DModel

  /** A coordinator as seen by action number `i` of one plan of turn `k`.  One that is on another plan of the
      same turn holds its epoch and never acts on this action. */
  function ProjCoord(c: Coord, k: TurnKey, plan: Plan, i: nat): DModel.Coord {
    if c.Down? || c.Failed? || c.key != k then DModel.Coord(None, DModel.Start)
    else
      match c
      case Acquired(_, e) => DModel.Coord(Some(e), DModel.Acquired)
      case Working(_, e, _, p, results) =>
        DModel.Coord(Some(e), if p != plan || |results| <= i then DModel.Acquired else DModel.Done)
      case Fenced(_, e, p, reached) =>
        DModel.Coord(Some(e), if p != plan || reached <= i then DModel.Stale else DModel.Done)
      case Finished(_, e, p, _) => DModel.Coord(Some(e), if p != plan then DModel.Acquired else DModel.Done)
  }

  function ProjCoords(coords: seq<Coord>, k: TurnKey, plan: Plan, i: nat): seq<DModel.Coord> {
    seq(|coords|, j requires 0 <= j < |coords| => ProjCoord(coords[j], k, plan, i))
  }

  function Proj(s: State, k: TurnKey, plan: Plan, i: nat): DModel.State
    requires i < |plan|
  {
    var a := AidAt(k, plan, i);
    DModel.State(OwnerOf(s.db, k),
                 if a in s.db.actions then s.db.actions[a].ownerEpoch else 0,
                 false, a in s.db.actions, CountAid(s.db.charges, a), false,
                 ProjCoords(s.coords, k, plan, i))
  }

  function Actor(event: Event): Option<nat> {
    match event
    case Begin(_, _) => None
    case Acquire(who, _) => Some(who)
    case Run(who) => Some(who)
    case RunWithPlan(who, _) => Some(who)
    case DieInCharge(who) => Some(who)
    case Exit(who) => Some(who)
  }

  lemma CountAppend(charges: seq<ChargeRow>, row: ChargeRow, a: Aid)
    ensures CountAid(charges + [row], a) == CountAid(charges, a) + if row.aid == a then 1 else 0
  {
    assert (charges + [row])[..|charges|] == charges;
  }

  /** Two states of the tables that one action cannot tell apart, but for the epoch of its turn. */
  ghost predicate SameView(db: Db, db': Db, a: Aid) {
    && (a in db'.actions <==> a in db.actions)
    && (a in db.actions ==> db'.actions[a] == db.actions[a])
    && CountAid(db'.charges, a) == CountAid(db.charges, a)
  }

  ghost predicate ClaimedView(db: Db, db': Db, a: Aid, epoch: nat) {
    && a !in db.actions && a in db'.actions && db'.actions[a].ownerEpoch == epoch
    && CountAid(db'.charges, a) == CountAid(db.charges, a) + 1
  }

  /** The step of a working coordinator: which of its outcomes happens, and what an action sees of it. */
  ghost predicate ChargeView(c: Coord, c': Coord, db: Db, db': Db, k: TurnKey, plan: Plan, i: nat)
    requires c.Working? && i < |plan|
  {
    var a := AidAt(k, plan, i);
    var mine := c.key == k && c.plan == plan && |c.results| == i;
    || (SameView(db, db', a) && (c'.Down? || c'.Failed?))
    || (SameView(db, db', a) && c'.Finished? && c'.key == c.key && c'.epoch == c.epoch && c'.plan == c.plan
        && (c.key == k && c.plan == plan ==> |c.results| > i))
    || (SameView(db, db', a) && c' == Fenced(c.key, c.epoch, c.plan, |c.results|) && c.epoch != OwnerOf(db, c.key))
    || (SameView(db, db', a) && NextResult(c, c') && (mine ==> c.epoch == OwnerOf(db, c.key) && a in db.actions))
    || (ClaimedView(db, db', a, c.epoch) && NextResult(c, c') && mine && c.epoch == OwnerOf(db, c.key))
  }

  ghost predicate NextResult(c: Coord, c': Coord)
    requires c.Working?
  {
    c'.Working? && c'.key == c.key && c'.epoch == c.epoch && c'.plan == c.plan && |c'.results| == |c.results| + 1
  }

  lemma ClaimView(db: Db, k: TurnKey, plan: Plan, j: nat, epoch: nat, k': TurnKey, plan': Plan, i: nat)
    requires j < |plan| && plan[j].args.ChargeArgs? && AidAt(k, plan, j) !in db.actions
    requires i < |plan'| && DistinctOrdinals(plan')
    ensures var db', a := Claim(db, k, plan, j, epoch), AidAt(k', plan', i);
            if k == k' && plan == plan' && i == j then ClaimedView(db, db', a, epoch) else SameView(db, db', a)
  {
    CountAppend(db.charges, PlanCharges(k, plan)[j], AidAt(k', plan', i));
    AidsDistinct(k', plan');
  }

  lemma RunNextView(offers: Offers, s: State, who: nat, crash: bool, k: TurnKey, plan: Plan, i: nat)
    requires OffersOk(offers) && Inv(offers, s) && DistinctOrdinals(plan) && i < |plan|
    requires who < |s.coords| && s.coords[who].Working?
    ensures var s' := RunNext(s, who, crash);
            ChargeView(s.coords[who], s'.coords[who], s.db, s'.db, k, plan, i)
  {
    var c := s.coords[who];
    assert CoordOk(offers, s.db, c);
    if |c.results| < |c.plan| {
      var (db', outcome) := ChargeTx(s.db, c.key, c.commitId, c.plan[|c.results|], c.epoch, crash);
      ChargeEffect(offers, s.db, c, crash);
      hide ChargeTx, DbOk, CoordOk, Progress, OneHolderPerEpoch;
      if outcome.Committed? {
        ClaimView(s.db, c.key, c.plan, |c.results|, c.epoch, k, plan, i);
      }
      assert db' == s.db ==> SameView(s.db, db', AidAt(k, plan, i));
      hide SameView, ClaimedView, Claim;
      assert ChargeView(c, AfterCharge(c, outcome), s.db, db', k, plan, i);
    }
  }

  /** The moves of the abstract coordinator that the turn protocol uses. */
  lemma AbstractMoves(m: DModel.State, who: nat, bound: nat)
    requires who < |m.c|
    ensures m.c[who].pc != DModel.Start ==>
              DModel.Moves(m, DModel.Transactional, bound, who, DModel.WithC(m, who, None, DModel.Start))
    ensures m.c[who].pc == DModel.Start && m.ownerEpoch < bound ==>
              DModel.Moves(m, DModel.Transactional, bound, who,
                DModel.WithC(m.(ownerEpoch := m.ownerEpoch + 1), who, Some(m.ownerEpoch + 1), DModel.Acquired))
    ensures m.c[who].pc == DModel.Acquired && m.c[who].known != Some(m.ownerEpoch) ==>
              DModel.Moves(m, DModel.Transactional, bound, who, DModel.WithC(m, who, m.c[who].known, DModel.Stale))
    ensures m.c[who] == DModel.Coord(Some(m.ownerEpoch), DModel.Acquired) && m.committed ==>
              DModel.Moves(m, DModel.Transactional, bound, who, DModel.WithC(m, who, m.c[who].known, DModel.Done))
    ensures m.c[who] == DModel.Coord(Some(m.ownerEpoch), DModel.Acquired) && !m.committed ==>
              DModel.Moves(m, DModel.Transactional, bound, who,
                DModel.WithC(m.(claimedBy := m.ownerEpoch, committed := true, durableEffect := m.durableEffect + 1),
                             who, m.c[who].known, DModel.Done))
  {
    var c := m.c[who];
    if c.pc == DModel.Acquired {
      assert DModel.AtAcquired(m, DModel.Transactional, who)[0] in DModel.AtAcquired(m, DModel.Transactional, who);
    }
  }

  /** A view of the coordinator's step is a move or a stutter. */
  lemma ViewIsMove(s: State, s': State, who: nat, k: TurnKey, plan: Plan, i: nat, bound: nat)
    requires i < |plan| && who < |s.coords| && s.coords[who].Working?
    requires |s'.coords| == |s.coords| && s'.coords == s.coords[who := s'.coords[who]]
    requires OwnerOf(s'.db, k) == OwnerOf(s.db, k)
    requires ChargeView(s.coords[who], s'.coords[who], s.db, s'.db, k, plan, i)
    ensures var m, m' := Proj(s, k, plan, i), Proj(s', k, plan, i);
            m' == m || DModel.Moves(m, DModel.Transactional, bound, who, m')
  {
    var c, c' := s.coords[who], s'.coords[who];
    var m, m' := Proj(s, k, plan, i), Proj(s', k, plan, i);
    AbstractMoves(m, who, bound);
    assert m'.c == m.c[who := ProjCoord(c', k, plan, i)];
    assert m.c[who] == ProjCoord(c, k, plan, i);
    if m'.c[who] == m.c[who] {
      assert m'.c == m.c;
    }
  }

  /** SIMULATION: every step of the racing coordinators is, for every action of every plan, a step of
      the abstract protocol or no step at all. */
  lemma StepSimulates(offers: Offers, s: State, event: Event, k: TurnKey, plan: Plan, i: nat, bound: nat)
    requires OffersOk(offers) && Inv(offers, s) && DistinctOrdinals(plan) && i < |plan| && OwnerOf(s.db, k) < bound
    ensures var m, m' := Proj(s, k, plan, i), Proj(Step(offers, s, event), k, plan, i);
            m' == m || m' in DModel.Successors(m, DModel.Transactional, bound)
  {
    var s' := Step(offers, s, event);
    var m, m' := Proj(s, k, plan, i), Proj(s', k, plan, i);
    OwnersMove(offers, s, event, k);
    DModel.SuccessorsAre(m, DModel.Transactional, bound, m');
    if (event.Run? || event.DieInCharge?) && event.who < |s.coords| && s.coords[event.who].Working? {
      RunNextView(offers, s, event.who, event.DieInCharge?, k, plan, i);
      hide Inv, OffersOk, DistinctOrdinals, Proj, DModel.Successors, DModel.Moves;
      ViewIsMove(s, s', event.who, k, plan, i, bound);
    } else {
      hide Inv, OffersOk, DistinctOrdinals, Step, Proj, DModel.Successors, DModel.Moves;
      OtherStepSimulates(offers, s, event, k, plan, i, bound);
    }
  }

  /** A step that claims nothing, after which one coordinator is unchanged, crashed, or newly acquired. */
  lemma PutSimulates(s: State, db': Db, who: nat, c': Coord, k: TurnKey, plan: Plan, i: nat, bound: nat)
    requires i < |plan| && who < |s.coords| && db'.actions == s.db.actions && db'.charges == s.db.charges
    requires var before, after := ProjCoord(s.coords[who], k, plan, i), ProjCoord(c', k, plan, i);
             || ((after == before || after == DModel.Coord(None, DModel.Start)) && OwnerOf(db', k) == OwnerOf(s.db, k))
             || (before.pc == DModel.Start && OwnerOf(s.db, k) < bound && OwnerOf(db', k) == OwnerOf(s.db, k) + 1
                 && after == DModel.Coord(Some(OwnerOf(db', k)), DModel.Acquired))
    requires ProjCoord(s.coords[who], k, plan, i).pc == DModel.Start ==>
        ProjCoord(s.coords[who], k, plan, i).known == None
    ensures var m, m' := Proj(s, k, plan, i), Proj(Put(s, db', who, c'), k, plan, i);
            m' == m || DModel.Moves(m, DModel.Transactional, bound, who, m')
  {
    var m, m' := Proj(s, k, plan, i), Proj(Put(s, db', who, c'), k, plan, i);
    AbstractMoves(m, who, bound);
    assert m'.c == m.c[who := ProjCoord(c', k, plan, i)];
    assert m.c[who] == ProjCoord(s.coords[who], k, plan, i);
    if m'.c[who] == m.c[who] {
      assert m'.c == m.c;
    }
  }

  lemma OtherStepSimulates(offers: Offers, s: State, event: Event, k: TurnKey, plan: Plan, i: nat, bound: nat)
    requires i < |plan| && OwnerOf(s.db, k) < bound
    requires (event.Run? || event.DieInCharge?) && event.who < |s.coords| ==> !s.coords[event.who].Working?
    ensures var m, m' := Proj(s, k, plan, i), Proj(Step(offers, s, event), k, plan, i);
            m' == m || exists who: nat :: DModel.Moves(m, DModel.Transactional, bound, who, m')
  {
    var s' := Step(offers, s, event);
    if s'.coords != s.coords {
      var who := Actor(event).value;
      assert s' == Put(s, s'.db, who, s'.coords[who]);
      PutSimulates(s, s'.db, who, s'.coords[who], k, plan, i, bound);
    } else {
      assert Proj(s, k, plan, i).c == Proj(s', k, plan, i).c;
    }
  }

  lemma {:induction false} ExecSimulates(offers: Offers, s: State, events: seq<Event>, k: TurnKey, plan: Plan, i: nat,
                                         bound: nat)
    returns (p: seq<DModel.State>)
    requires OffersOk(offers) && Inv(offers, s) && DistinctOrdinals(plan) && i < |plan|
    requires OwnerOf(s.db, k) + |events| <= bound
    ensures DModel.PathBetween(p, Proj(s, k, plan, i), Proj(Exec(offers, s, events), k, plan, i),
                               DModel.Transactional, bound)
    decreases |events|
  {
    var m := Proj(s, k, plan, i);
    if events == [] {
      p := [m];
      assert DModel.PathBetween(p, m, m, DModel.Transactional, bound);
    } else {
      var s1 := Step(offers, s, events[0]);
      StepKeepsInv(offers, s, events[0]);
      StepSimulates(offers, s, events[0], k, plan, i, bound);
      OwnerBound(offers, s, events[0], k);
      hide Step, Inv, Proj, OffersOk, DistinctOrdinals, DModel.Successors, DModel.PathBetween;
      p := ExecSimulates(offers, s1, events[1..], k, plan, i, bound);
      if Proj(s1, k, plan, i) != m {
        p := Prepend(m, Proj(s1, k, plan, i), Proj(Exec(offers, s, events), k, plan, i), p, bound);
      }
    }
  }

  lemma Prepend(m: DModel.State, m1: DModel.State, t: DModel.State, p: seq<DModel.State>, bound: nat)
    returns (p': seq<DModel.State>)
    requires m1 in DModel.Successors(m, DModel.Transactional, bound)
    requires DModel.PathBetween(p, m1, t, DModel.Transactional, bound)
    ensures DModel.PathBetween(p', m, t, DModel.Transactional, bound)
  {
    p' := [m] + p;
  }

  lemma OwnerBound(offers: Offers, s: State, event: Event, k: TurnKey)
    ensures OwnerOf(Step(offers, s, event).db, k) <= OwnerOf(s.db, k) + 1
  {
  }

  /** Every run of the turn protocol is a run of the abstract one, so what the explorer establishes
      there holds here: for every reachable state, what an action sees is a reachable abstract state. */
  lemma RunsAreAbstractRuns(offers: Offers, n: nat, events: seq<Event>, k: TurnKey, plan: Plan, i: nat)
    requires OffersOk(offers) && DistinctOrdinals(plan) && i < |plan|
    ensures DModel.Reachable(Proj(Exec(offers, Init(n), events), k, plan, i), n, DModel.Transactional, |events|)
  {
    var p := ExecSimulates(offers, Init(n), events, k, plan, i, |events|);
    assert Proj(Init(n), k, plan, i).c == DModel.Initial(n).c;
  }

  /** What an action sees: its turn's epoch, whether and under which epoch it is claimed, its charges, and of every
      coordinator the epoch that it holds for the turn. */
  lemma WhatIsSeen(s: State, k: TurnKey, plan: Plan, i: nat)
    requires i < |plan|
    ensures var m, a := Proj(s, k, plan, i), AidAt(k, plan, i);
            && m.ownerEpoch == (if k in s.db.owner then s.db.owner[k] else 0)
            && (m.committed <==> a in s.db.actions)
            && (m.committed ==> m.claimedBy == s.db.actions[a].ownerEpoch)
            && m.durableEffect == CountAid(s.db.charges, a)
            && |m.c| == |s.coords|
            && forall j, e: nat :: 0 <= j < |m.c| ==> (m.c[j].known == Some(e) <==> s.coords[j].Holds(k, e))
  {
  }

  /** WHAT THE EXPLORER ESTABLISHES HOLDS HERE: at most one charge of an action in every reachable state of the turn
      protocol, and one exactly when its row is there, by way of the abstract protocol. */
  lemma SafetyTransfers(offers: Offers, n: nat, events: seq<Event>, k: TurnKey, plan: Plan, i: nat)
    requires OffersOk(offers) && DistinctOrdinals(plan) && i < |plan|
    ensures var db, a := Exec(offers, Init(n), events).db, AidAt(k, plan, i);
            CountAid(db.charges, a) <= 1 && (a in db.actions <==> CountAid(db.charges, a) == 1)
  {
    var s := Exec(offers, Init(n), events);
    RunsAreAbstractRuns(offers, n, events, k, plan, i);
    DModel.CommittedIffOneEffect(Proj(s, k, plan, i), n, DModel.Transactional, |events|);
    hide Proj, DModel.Reachable, Exec;
    WhatIsSeen(s, k, plan, i);
  }
}
