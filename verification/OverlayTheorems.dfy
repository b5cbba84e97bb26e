/** What the overlay protocol guarantees, over every interleaving, death and torn write. */
module OverlayTheorems {
  import opened Dtx
  import opened Plans
  import opened Schedules
  import opened OverlayProtocol

  lemma Reachable(plans: PlanTable, n: nat, events: seq<Event>)
    requires PlansOk(plans)
    ensures Inv(plans, Exec(plans, Init(n), events))
  {
    ExecKeepsInv(plans, Init(n), events);
  }

  /** COMPLETE FILES: a file under `committed/` is the file of a planned action of a begun turn and
      holds the whole canonical text of its arguments. */
  lemma CommittedFilesAreComplete(plans: PlanTable, n: nat, events: seq<Event>, a: Aid)
    requires PlansOk(plans) && a in Exec(plans, Init(n), events).fs.committed
    ensures var s, k := Exec(plans, Init(n), events), KeyOf(a);
            && k in s.db.turns && k in plans
            && exists i :: 0 <= i < |plans[k]| && a == AidAt(k, plans[k], i)
                 && s.fs.committed[a] == Canon(plans[k][i].args)
  {
    Reachable(plans, n, events);
    var s := Exec(plans, Init(n), events);
    assert FileOk(plans, s.db, s.fs, a);
  }

  /** Two rows of flags, where a raised flag needs its twin and a published one all earlier records. */
  lemma OneAhead(rec: seq<bool>, pub: seq<bool>) returns (r: nat, p: nat)
    requires |rec| == |pub|
    requires forall i :: 0 <= i < |rec| && rec[i] ==> pub[i]
    requires forall i, j :: 0 <= i < j < |rec| && pub[j] ==> rec[i]
    ensures r <= p <= r + 1 && p <= |rec|
    ensures forall i :: 0 <= i < |rec| ==> (rec[i] <==> i < r) && (pub[i] <==> i < p)
  {
    r := 0;
    while r < |rec| && rec[r]
      invariant r <= |rec| && forall i :: 0 <= i < r ==> rec[i]
    {
      r := r + 1;
    }
    p := if r < |rec| && pub[r] then r + 1 else r;
  }

  lemma PrefixLengths(plans: PlanTable, db: Db, fs: Files, k: TurnKey) returns (recorded: nat, published: nat)
    requires DbOk(plans, db, fs) && k in db.turns && k in plans
    ensures recorded <= published <= recorded + 1 && published <= |plans[k]|
    ensures forall i :: 0 <= i < |plans[k]| ==> (AidAt(k, plans[k], i) in db.actions <==> i < recorded)
    ensures forall i :: 0 <= i < |plans[k]| ==> (AidAt(k, plans[k], i) in fs.committed <==> i < published)
    ensures RecordedBefore(db, k, plans[k], |plans[k]|) ==> recorded == |plans[k]|
  {
    var plan := plans[k];
    assert PrefixOk(plans, db, fs, k);
    var rec := seq(|plan|, i requires 0 <= i < |plan| => AidAt(k, plan, i) in db.actions);
    var pub := seq(|plan|, i requires 0 <= i < |plan| => AidAt(k, plan, i) in fs.committed);
    forall i, j | 0 <= i < j < |plan| && pub[j] ensures rec[i] {
      assert RecordedBefore(db, k, plan, j);
    }
    recorded, published := OneAhead(rec, pub);
    forall i | 0 <= i < |plan|
      ensures AidAt(k, plan, i) in db.actions <==> i < recorded
      ensures AidAt(k, plan, i) in fs.committed <==> i < published
    {
      assert rec[i] <==> AidAt(k, plan, i) in db.actions;
      assert pub[i] <==> AidAt(k, plan, i) in fs.committed;
    }
    if recorded < |plan| {
      assert AidAt(k, plan, recorded) !in db.actions;
    }
  }

  /** PREFIX, NO GHOSTS: of every begun turn the recorded actions are a prefix of the plan, the
      published files are a prefix, and publishing is at most one ahead: no recorded action lacks its
      file. */
  lemma PublishedAtMostOneAhead(plans: PlanTable, n: nat, events: seq<Event>, k: TurnKey)
    returns (recorded: nat, published: nat)
    requires PlansOk(plans) && k in Exec(plans, Init(n), events).db.turns
    ensures var s := Exec(plans, Init(n), events);
            && k in plans && recorded <= published <= recorded + 1 && published <= |plans[k]|
            && (forall i :: 0 <= i < |plans[k]| ==> (AidAt(k, plans[k], i) in s.db.actions <==> i < recorded))
            && (forall i :: 0 <= i < |plans[k]| ==> (AidAt(k, plans[k], i) in s.fs.committed <==> i < published))
            && (s.db.turns[k].committed ==> recorded == |plans[k]|)
  {
    Reachable(plans, n, events);
    var s := Exec(plans, Init(n), events);
    recorded, published := PrefixLengths(plans, s.db, s.fs, k);
    if s.db.turns[k].committed {
      assert RecordedBefore(s.db, k, plans[k], |plans[k]|);
    }
  }

  // ---- convergent recovery ----

  ghost predicate Active(s: State, who: nat, k: TurnKey) {
    && who < |s.workers| && k in s.db.turns
    && (s.workers[who].Acquired? || s.workers[who].At? || s.workers[who].Finished?)
    && s.workers[who].key == k
  }

  function PhaseRank(p: Phase): nat {
    match p
    case Check => 4
    case Opened => 3
    case Written => 2
    case Published => 1
  }

  /** A bound on the actions of its program that a worker still has to perform. */
  function Remaining(plans: PlanTable, w: Worker): nat {
    match w
    case Acquired(k, _, _) => if k in plans then 4 * |plans[k]| + 2 else 0
    case At(_, _, _, _, plan, next, phase) =>
      if next < |plan| then 4 * (|plan| - next) - 4 + PhaseRank(phase) + 1 else 1
    case _ => 0
  }

  lemma RunMovesOn(plans: PlanTable, s: State, who: nat, k: TurnKey)
    requires PlansOk(plans) && Inv(plans, s) && Active(s, who, k)
    ensures var s' := RunNext(s, who);
            && Active(s', who, k)
            && Remaining(plans, s'.workers[who]) <= Remaining(plans, s.workers[who])
            && (Remaining(plans, s.workers[who]) > 0 ==>
                  Remaining(plans, s'.workers[who]) < Remaining(plans, s.workers[who]))
  {
    var w := s.workers[who];
    assert StoredPlanOk(plans, s.db, k);
    if w.At? && w.next < |w.plan| {
      RunActionKeepsInv(plans, s, who);
      hide Inv, PlansOk;
      ActionMovesOn(plans, s, who);
    } else {
      hide Inv, PlansOk;
    }
  }

  lemma ActionMovesOn(plans: PlanTable, s: State, who: nat)
    requires who < |s.workers| && s.workers[who].At? && s.workers[who].next < |s.workers[who].plan|
    requires RunAction(s, who).workers[who].At?
    ensures var w, s' := s.workers[who], RunAction(s, who);
            && s'.workers[who].key == w.key && s'.db.turns == s.db.turns
            && Remaining(plans, s'.workers[who]) < Remaining(plans, w)
  {
    hide Canon;
  }

  /** Nobody else moves a worker, and begun turns stay begun. */
  lemma OtherEventKeeps(plans: PlanTable, s: State, event: Event, who: nat, k: TurnKey)
    requires who < |s.workers| && !s.workers[who].Down? && k in s.db.turns && event != Run(who) && event != Exit(who)
    ensures Step(plans, s, event).workers[who] == s.workers[who] && k in Step(plans, s, event).db.turns
  {
    if event.Run? && event.who < |s.workers| {
      RunNextKeepsOthers(s, event.who, who, k);
    }
  }

  lemma RunNextKeepsOthers(s: State, mover: nat, who: nat, k: TurnKey)
    requires mover < |s.workers| && who < |s.workers| && mover != who && k in s.db.turns
    ensures RunNext(s, mover).workers[who] == s.workers[who] && k in RunNext(s, mover).db.turns
  {
  }

  lemma ActiveKept(plans: PlanTable, s: State, event: Event, who: nat, k: TurnKey)
    requires PlansOk(plans) && Inv(plans, s) && Active(s, who, k) && event != Exit(who)
    ensures var s' := Step(plans, s, event);
            && Active(s', who, k)
            && Remaining(plans, s'.workers[who]) <= Remaining(plans, s.workers[who])
            && (event == Run(who) && Remaining(plans, s.workers[who]) > 0 ==>
                  Remaining(plans, s'.workers[who]) < Remaining(plans, s.workers[who]))
  {
    if event == Run(who) {
      RunMovesOn(plans, s, who, k);
      hide Inv, RunNext, Remaining, Active;
      assert Step(plans, s, event) == RunNext(s, who);
    } else {
      hide Inv, Step;
      OtherEventKeeps(plans, s, event, who, k);
    }
  }

  lemma {:induction false} ActiveRuns(plans: PlanTable, s: State, events: seq<Event>, who: nat, k: TurnKey)
    requires PlansOk(plans) && Inv(plans, s) && Active(s, who, k) && Exit(who) !in events
    ensures var s' := Exec(plans, s, events);
            && Inv(plans, s') && Active(s', who, k)
            && (Remaining(plans, s'.workers[who]) == 0
                || Remaining(plans, s'.workers[who]) + Count(events, Run(who)) <= Remaining(plans, s.workers[who]))
    decreases |events|
  {
    if events != [] {
      StepKeepsInv(plans, s, events[0]);
      ActiveKept(plans, s, events[0], who, k);
      ActiveRuns(plans, Step(plans, s, events[0]), events[1..], who, k);
    }
  }

  /** CONVERGENCE WITHOUT A FENCE: any process that acquires a begun turn and is not killed finishes it,
      even when newer owners keep arriving: the turn is committed, every action recorded, every file
      published and complete. */
  lemma ConvergentRecovery(plans: PlanTable, n: nat, before: seq<Event>, who: nat, k: TurnKey, pid: int,
      during: seq<Event>)
    requires PlansOk(plans) && who < n
    requires Exec(plans, Init(n), before).workers[who].Down? && k in Exec(plans, Init(n), before).db.turns
    requires Exit(who) !in during
    ensures var s := Exec(plans, Step(plans, Exec(plans, Init(n), before), Acquire(who, k, pid)), during);
            && k in plans && Active(s, who, k)
            && (Count(during, Run(who)) >= 4 * |plans[k]| + 2 ==>
                  && s.workers[who].Finished? && s.db.turns[k].committed
                  && forall i :: 0 <= i < |plans[k]| ==>
                       && AidAt(k, plans[k], i) in s.db.actions
                       && AidAt(k, plans[k], i) in s.fs.committed
                       && s.fs.committed[AidAt(k, plans[k], i)] == Canon(plans[k][i].args))
  {
    var s0 := Exec(plans, Init(n), before);
    Reachable(plans, n, before);
    var s1 := Step(plans, s0, Acquire(who, k, pid));
    StepKeepsInv(plans, s0, Acquire(who, k, pid));
    ActiveRuns(plans, s1, during, who, k);
    var s := Exec(plans, s1, during);
    if Remaining(plans, s.workers[who]) == 0 {
      assert WorkerOk(plans, s.db, s.fs, s.workers[who]);
      AidsDistinct(k, plans[k]);
      forall i | 0 <= i < |plans[k]|
        ensures AidAt(k, plans[k], i) in s.db.actions && AidAt(k, plans[k], i) in s.fs.committed
             && s.fs.committed[AidAt(k, plans[k], i)] == Canon(plans[k][i].args)
      {
        var a := AidAt(k, plans[k], i);
        assert a in s.db.actions && KeyOf(a) == k;
        assert FileOk(plans, s.db, s.fs, a);
      }
    }
  }

  // ---- the sequential operation ----

  function RunTimes(s: State, who: nat, n: nat): State
    requires who < |s.workers|
    ensures |RunTimes(s, who, n).workers| == |s.workers|
    decreases n
  {
    if n == 0 then s else RunTimes(RunNext(s, who), who, n - 1)
  }

  /** One call of `do_overlay` is its steps performed one after the other; its two death windows are
      the states after the second and the third. */
  lemma OverlayCallIsSchedule(s: State, who: nat, crash: OverlayCrash)
    requires who < |s.workers| && s.workers[who].At? && s.workers[who].next < |s.workers[who].plan|
    requires s.workers[who].phase.Check?
    ensures var w := s.workers[who];
            var (db', fs', _) := OverlayCall(s.db, s.fs, w.key, w.commitId, w.plan[w.next], w.epoch, w.pid, crash);
            var steps := if TmpOf(w).aid in s.fs.committed then 2
                         else if crash.HardAfterWrite? then 2
                         else if crash.HardAfterPublish? then 3 else 4;
            var s' := RunTimes(s, who, steps);
            && s'.db == db' && s'.fs == fs'
            && (crash.NoCrash? ==> s'.workers[who] == w.(next := w.next + 1, phase := Check))
  {
    hide Canon, RecordOverlay;
    var w := s.workers[who];
    var tmp := TmpOf(w);
    var s1 := RunNext(s, who);
    var s2 := RunNext(s1, who);
    if tmp.aid in s.fs.committed {
      assert RunTimes(s, who, 2) == RunTimes(s1, who, 1) == RunTimes(s2, who, 0);
    } else {
      assert WriteTmp(WriteTmp(s.fs, tmp, ""), tmp, Canon(w.plan[w.next].args)) ==
          WriteTmp(s.fs, tmp, Canon(w.plan[w.next].args));
      var s3 := RunNext(s2, who);
      var s4 := RunNext(s3, who);
      assert RunTimes(s, who, 2) == RunTimes(s1, who, 1) == RunTimes(s2, who, 0);
      assert RunTimes(s, who, 3) == RunTimes(s1, who, 2) == RunTimes(s2, who, 1) == RunTimes(s3, who, 0);
      assert RunTimes(s, who, 4) == RunTimes(s1, who, 3) == RunTimes(s2, who, 2) == RunTimes(s3, who, 1) ==
          RunTimes(s4, who, 0);
    }
  }
}
