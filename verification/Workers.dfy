/** The programs that racing coordinator processes run, each performed alone on the shared tables and
    files: the steps that the two protocols interleave. */
module Workers {
  import opened Identity
  import opened Dtx
  import opened Plans
  import OP = OverlayProtocol
  import OT = OverlayTheorems
  import TP = TurnProtocol
  import TT = TurnTheorems

  datatype Ending = TurnCommitted | FencedOut | Swallowed | Died

  function EndOf(r: RunResult): Ending {
    match r
    case Returned(_) => TurnCommitted
    case NoPlan => Swallowed
    case Raised(o) => if o.StaleOwner? then FencedOut else if o.Crashed? then Died else Swallowed
  }

  /** A coordinator of charges: acquire, reload the durable plan, run it, leave when fenced out.  Alone, it
      is exactly a recovery of the turn. */
  method ConcurrentWorker(dtx: DTX, k: TurnKey, hardCrashAt: Option<int>) returns (end: Ending)
    modifies dtx
    ensures var (db, r) := RunTurnDb(old(dtx.Tables()), k, None, None, hardCrashAt);
            dtx.Tables() == db && end == EndOf(r)
    ensures dtx.Store() == old(dtx.Store())
  {
    hide ChargeTx;
    var epoch := dtx.Acquire(k);
    var loaded := dtx.LoadPlan(k);
    if loaded.None? {
      return Swallowed;
    }
    var (cid, plan) := loaded.value;
    ghost var owned := dtx.Tables();
    ghost var results := [];
    var i := 0;
    while i < |plan|
      invariant 0 <= i <= |plan|
      invariant dtx.Store() == old(dtx.Store())
      invariant RunSteps(dtx.Tables(), k, cid, plan[i..], epoch, hardCrashAt, results)
             == RunSteps(owned, k, cid, plan, epoch, hardCrashAt, [])
    {
      assert plan[i..][0] == plan[i] && plan[i..][1..] == plan[i + 1..];
      var outcome := dtx.DoCharge(k, cid, plan[i], epoch, hardCrashAt == Some(plan[i].ordinal));
      if outcome.Raised() {
        return if outcome.StaleOwner? then FencedOut else if outcome.Crashed? then Died else Swallowed;
      }
      results := results + [outcome];
      i := i + 1;
    }
    if k in dtx.turns {
      dtx.turns := dtx.turns[k := dtx.turns[k].(committed := true)];
    }
    return TurnCommitted;
  }

  /** How the process of a coordinator looks after its program ended in a given way. */
  ghost predicate LeftAs(c: TP.Coord, k: TurnKey, end: Ending) {
    match end
    case TurnCommitted => c.Finished? && c.key == k
    case FencedOut => c.Fenced? && c.key == k
    case Swallowed => c.Failed?
    case Died => c.Down?
  }

  /** The charge program is a schedule of the turn protocol, also when it dies inside a charge; so every
      statement over interleavings covers it. */
  lemma ConcurrentWorkerIsSchedule(offers: Offers, s: TP.State, who: nat, k: TurnKey, hardCrashAt: Option<int>)
    returns (events: seq<TP.Event>)
    requires who < |s.coords| && s.coords[who].Down?
    ensures forall e :: e in events ==>
              e == TP.Acquire(who, k) || e == TP.Run(who) || (hardCrashAt.Some? && e == TP.DieInCharge(who))
    ensures var (db, r) := RunTurnDb(s.db, k, None, None, hardCrashAt);
            var s' := TP.Exec(offers, s, events);
            s'.db == db && LeftAs(s'.coords[who], k, EndOf(r))
  {
    var s1 := TP.Step(offers, s, TP.Acquire(who, k));
    var s2 := TP.Step(offers, s1, TP.Run(who));
    AcquireAndLoad(offers, s, who, k);
    var (db, r) := RunTurnDb(s.db, k, None, None, hardCrashAt);
    var rest := [];
    if k in s.db.turns {
      rest := TT.RunTurnIsSchedule(offers, s2, who, hardCrashAt);
      var w := s2.coords[who];
      assert w.plan[|w.results|..] == w.plan;
      hide TP.Step, RunSteps;
      assert TP.Exec(offers, s2, rest).db == db;
      EndingsAgree(w, TP.Exec(offers, s2, rest).coords[who], r);
    }
    hide TP.Step, RunTurnDb, LeftAs;
    events := [TP.Acquire(who, k), TP.Run(who)] + rest;
    assert events[1..] == [TP.Run(who)] + rest && events[1..][1..] == rest;
    assert TP.Exec(offers, s, events) == TP.Exec(offers, s1, events[1..]) == TP.Exec(offers, s2, rest);
  }

  /** The first two steps: the newest epoch, then the stored plan, if there is one. */
  lemma AcquireAndLoad(offers: Offers, s: TP.State, who: nat, k: TurnKey)
    requires who < |s.coords| && s.coords[who].Down?
    ensures var s2 := TP.Step(offers, TP.Step(offers, s, TP.Acquire(who, k)), TP.Run(who));
            var owned := AcquireDb(s.db, k);
            && s2.db == owned
            && s2.coords[who] ==
               if k in s.db.turns then
                 TP.Working(k, OwnerOf(owned, k), s.db.turns[k].commitId, s.db.turns[k].plan, [])
               else TP.Failed
  {
  }

  lemma EndingsAgree(c: TP.Coord, c': TP.Coord, r: RunResult)
    requires c.Working? && TT.EndsAs(c, c', r)
    ensures LeftAs(c', c.key, EndOf(r))
  {
  }

  /** The remaining overlay actions of a plan, then the turn commit; false when the process died. */
  function OverlaySteps(db: Db, fs: Files, k: TurnKey, commitId: CommitId, steps: Plan, epoch: nat, pid: int,
                        crashAt: Option<int>, crash: OverlayCrash): (Db, Files, bool)
    decreases |steps|
  {
    if steps == [] then (CommitTurnDb(db, k), fs, true)
    else
      var armed := if crashAt == Some(steps[0].ordinal) then crash else NoCrash;
      var (db', fs', outcome) := OverlayCall(db, fs, k, commitId, steps[0], epoch, pid, armed);
      if outcome.Crashed? then (db', fs', false)
      else OverlaySteps(db', fs', k, commitId, steps[1..], epoch, pid, crashAt, crash)
  }

  /** What the whole overlay program does to tables and files, and how it ends. */
  function OverlayRun(db: Db, fs: Files, k: TurnKey, pid: int, crashAt: Option<int>, crash: OverlayCrash)
    : (Db, Files, Ending)
  {
    var owned := AcquireDb(db, k);
    match LoadDb(owned, k)
    case None => (owned, fs, Swallowed)
    case Some((commitId, plan)) =>
      var (db', fs', alive) := OverlaySteps(owned, fs, k, commitId, plan, OwnerOf(owned, k), pid, crashAt, crash);
      (db', fs', if alive then TurnCommitted else Died)
  }

  /** A coordinator of overlay actions. */
  method OverlayWorker(dtx: DTX, k: TurnKey, pid: int, crashAt: Option<int>, crash: OverlayCrash) returns (end: Ending)
    modifies dtx
    ensures (dtx.Tables(), dtx.Store(), end) ==
            OverlayRun(old(dtx.Tables()), old(dtx.Store()), k, pid, crashAt, crash)
  {
    hide OverlayCall;
    var epoch := dtx.Acquire(k);
    var loaded := dtx.LoadPlan(k);
    if loaded.None? {
      return Swallowed;
    }
    var (cid, plan) := loaded.value;
    ghost var owned := dtx.Tables();
    var i := 0;
    while i < |plan|
      invariant 0 <= i <= |plan|
      invariant OverlaySteps(dtx.Tables(), dtx.Store(), k, cid, plan[i..], epoch, pid, crashAt, crash)
             == OverlaySteps(owned, old(dtx.Store()), k, cid, plan, epoch, pid, crashAt, crash)
    {
      assert plan[i..][0] == plan[i] && plan[i..][1..] == plan[i + 1..];
      var armed := if crashAt == Some(plan[i].ordinal) then crash else NoCrash;
      var outcome := dtx.DoOverlay(k, cid, plan[i], epoch, pid, armed);
      if outcome.Crashed? {
        return Died;
      }
      i := i + 1;
    }
    if k in dtx.turns {
      dtx.turns := dtx.turns[k := dtx.turns[k].(committed := true)];
    }
    return TurnCommitted;
  }

  lemma {:induction false} RunTimesSplit(s: OP.State, who: nat, m: nat, n: nat)
    requires who < |s.workers|
    ensures OT.RunTimes(s, who, m + n) == OT.RunTimes(OT.RunTimes(s, who, m), who, n)
    decreases m
  {
    if m > 0 {
      RunTimesSplit(OP.RunNext(s, who), who, m - 1, n);
    }
  }

  /** From the look at the first action on, the overlay program is a number of steps of its worker. */
  lemma {:induction false} OverlayStepsRun(s: OP.State, who: nat, crashAt: Option<int>, crash: OverlayCrash)
    returns (n: nat)
    requires who < |s.workers| && s.workers[who].At? && s.workers[who].phase.Check?
    requires s.workers[who].next <= |s.workers[who].plan|
    ensures var w := s.workers[who];
            var (db, fs, alive) :=
              OverlaySteps(s.db, s.fs, w.key, w.commitId, w.plan[w.next..], w.epoch, w.pid, crashAt, crash);
            var s' := OT.RunTimes(s, who, n);
            s'.db == db && s'.fs == fs && (alive ==> s'.workers[who] == OP.Finished(w.key, w.epoch, w.pid))
    decreases |s.workers[who].plan| - s.workers[who].next
  {
    hide OverlayCall, OP.RunNext, OT.RunTimes;
    var w := s.workers[who];
    if w.next == |w.plan| {
      n := 1;
      CommitIsStep(s, who);
      assert w.plan[w.next..] == [];
    } else {
      assert w.plan[w.next..][0] == w.plan[w.next] && w.plan[w.next..][1..] == w.plan[w.next + 1..];
      var armed := if crashAt == Some(w.plan[w.next].ordinal) then crash else NoCrash;
      n := CallRuns(s, who, armed);
      if !OverlayCall(s.db, s.fs, w.key, w.commitId, w.plan[w.next], w.epoch, w.pid, armed).2.Crashed? {
        var rest := OverlayStepsRun(OT.RunTimes(s, who, n), who, crashAt, crash);
        RunTimesSplit(s, who, n, rest);
        n := n + rest;
      }
    }
  }

  lemma CommitIsStep(s: OP.State, who: nat)
    requires who < |s.workers| && s.workers[who].At? && s.workers[who].next == |s.workers[who].plan|
    ensures var w, s' := s.workers[who], OT.RunTimes(s, who, 1);
            && s'.db == CommitTurnDb(s.db, w.key) && s'.fs == s.fs
            && s'.workers[who] == OP.Finished(w.key, w.epoch, w.pid)
  {
    assert OT.RunTimes(s, who, 1) == OT.RunTimes(OP.RunNext(s, who), who, 0);
  }

  /** One call, and where it leaves its worker if it answers, even when armed to die later. */
  lemma CallRuns(s: OP.State, who: nat, armed: OverlayCrash) returns (n: nat)
    requires who < |s.workers| && s.workers[who].At? && s.workers[who].next < |s.workers[who].plan|
    requires s.workers[who].phase.Check?
    ensures var w, s' := s.workers[who], OT.RunTimes(s, who, n);
            var (db, fs, outcome) := OverlayCall(s.db, s.fs, w.key, w.commitId, w.plan[w.next], w.epoch, w.pid, armed);
            && s'.db == db && s'.fs == fs
            && (!outcome.Crashed? ==> s'.workers[who] == w.(next := w.next + 1, phase := OP.Check))
  {
    hide OT.RunTimes, OP.RunNext, Canon, RecordOverlay;
    OT.OverlayCallIsSchedule(s, who, armed);
    OT.OverlayCallIsSchedule(s, who, NoCrash);
    n := if OP.TmpOf(s.workers[who]).aid in s.fs.committed || armed.HardAfterWrite? then 2
         else if armed.HardAfterPublish? then 3 else 4;
  }

  /** How the process of an overlay worker looks after its program ended in a given way. */
  ghost predicate WorkerLeftAs(w: OP.Worker, k: TurnKey, end: Ending) {
    match end
    case TurnCommitted => w.Finished? && w.key == k
    case FencedOut => false
    case Swallowed => w.Failed?
    case Died => w.Down?
  }

  function Repeat(event: OP.Event, n: nat): (events: seq<OP.Event>)
    ensures forall e :: e in events ==> e == event
  {
    if n == 0 then [] else [event] + Repeat(event, n - 1)
  }

  lemma {:induction false} RunTimesIsSchedule(plans: PlanTable, s: OP.State, who: nat, n: nat, last: seq<OP.Event>)
    requires who < |s.workers|
    ensures OP.Exec(plans, s, Repeat(OP.Run(who), n) + last) == OP.Exec(plans, OT.RunTimes(s, who, n), last)
    decreases n
  {
    if n == 0 {
      assert [] + last == last;
    } else {
      var events := Repeat(OP.Run(who), n) + last;
      assert events[0] == OP.Run(who) && events[1..] == Repeat(OP.Run(who), n - 1) + last;
      RunTimesIsSchedule(plans, OP.RunNext(s, who), who, n - 1, last);
    }
  }

  /** The overlay program is a schedule of the overlay protocol, from a process that is down to one that has finished,
      failed for want of a plan, or died in one of its two windows; so every statement over interleavings covers it. */
  lemma OverlayWorkerIsSchedule(plans: PlanTable, s: OP.State, who: nat, k: TurnKey, pid: int, crashAt: Option<int>,
                                crash: OverlayCrash)
    returns (events: seq<OP.Event>)
    requires who < |s.workers| && s.workers[who].Down?
    ensures forall e :: e in events ==>
              e == OP.Acquire(who, k, pid) || e == OP.Run(who) || (crashAt.Some? && e == OP.Exit(who))
    ensures var (db, fs, end) := OverlayRun(s.db, s.fs, k, pid, crashAt, crash);
            var s' := OP.Exec(plans, s, events);
            s'.db == db && s'.fs == fs && WorkerLeftAs(s'.workers[who], k, end)
  {
    hide OP.RunNext, OverlayRun, OT.RunTimes;
    var s1 := OP.Step(plans, s, OP.Acquire(who, k, pid));
    var s2 := OP.RunNext(s1, who);
    var n := OverlayProgramRuns(plans, s, who, k, pid, crashAt, crash);
    var s3 := OT.RunTimes(s2, who, n);
    var last := if OverlayRun(s.db, s.fs, k, pid, crashAt, crash).2.Died? then [OP.Exit(who)] else [];
    RunTimesIsSchedule(plans, s2, who, n, last);
    assert last != [] ==> OP.Exec(plans, s3, last) == OP.Exec(plans, OP.Step(plans, s3, OP.Exit(who)), []);
    var runs := Repeat(OP.Run(who), n) + last;
    events := [OP.Acquire(who, k, pid), OP.Run(who)] + runs;
    assert events[1..] == [OP.Run(who)] + runs && events[1..][1..] == runs;
    assert OP.Exec(plans, s, events) == OP.Exec(plans, s1, events[1..]) == OP.Exec(plans, s2, runs);
  }

  /** After acquiring and loading, so many steps do what the program does, and one that is not killed has ended. */
  lemma OverlayProgramRuns(plans: PlanTable, s: OP.State, who: nat, k: TurnKey, pid: int, crashAt: Option<int>,
                           crash: OverlayCrash)
    returns (n: nat)
    requires who < |s.workers| && s.workers[who].Down?
    ensures |OP.RunNext(OP.Step(plans, s, OP.Acquire(who, k, pid)), who).workers| == |s.workers|
    ensures var s2 := OP.RunNext(OP.Step(plans, s, OP.Acquire(who, k, pid)), who);
            var (db, fs, end) := OverlayRun(s.db, s.fs, k, pid, crashAt, crash);
            var s3 := OT.RunTimes(s2, who, n);
            && s3.db == db && s3.fs == fs
            && (end.Died? ==> crashAt.Some?)
            && (!end.Died? ==> WorkerLeftAs(s3.workers[who], k, end))
  {
    var s2 := OP.RunNext(OP.Step(plans, s, OP.Acquire(who, k, pid)), who);
    OverlayAcquireAndLoad(plans, s, who, k, pid);
    hide OP.RunNext, OP.Step, OverlaySteps;
    n := 0;
    if k in s.db.turns {
      var w := s2.workers[who];
      assert w.plan[w.next..] == w.plan;
      n := OverlayStepsRun(s2, who, crashAt, crash);
      AliveWithoutCrash(s2.db, s2.fs, k, w.commitId, w.plan, w.epoch, pid, crash);
    }
  }

  lemma OverlayAcquireAndLoad(plans: PlanTable, s: OP.State, who: nat, k: TurnKey, pid: int)
    requires who < |s.workers| && s.workers[who].Down?
    ensures var s2 := OP.RunNext(OP.Step(plans, s, OP.Acquire(who, k, pid)), who);
            var owned := AcquireDb(s.db, k);
            && s2.db == owned && s2.fs == s.fs
            && s2.workers[who] ==
               if k in s.db.turns then
                 OP.At(k, OwnerOf(owned, k), pid, s.db.turns[k].commitId, s.db.turns[k].plan, 0, OP.Check)
               else OP.Failed
  {
  }

  /** A program that is not told where to die does not. */
  lemma {:induction false} AliveWithoutCrash(db: Db, fs: Files, k: TurnKey, commitId: CommitId, steps: Plan, epoch: nat,
                                             pid: int, crash: OverlayCrash)
    ensures OverlaySteps(db, fs, k, commitId, steps, epoch, pid, None, crash).2
    decreases |steps|
  {
    if steps != [] {
      var (db', fs', _) := OverlayCall(db, fs, k, commitId, steps[0], epoch, pid, NoCrash);
      AliveWithoutCrash(db', fs', k, commitId, steps[1..], epoch, pid, crash);
    }
  }
}
