/** One run of a turn, and one overlay worker, performed alone: the answer of every step and the exact tables and files
    left, from any tables, with a crash asked for or not.  The references below say what a step does in terms of the
    tables that the run started from. */
module RunExact {
  import opened Identity
  import opened Dtx
  import opened Plans
  import opened Workers

  /** What a step is answered by the holder of the newest epoch. */
  function AnswerAt(db: Db, k: TurnKey, cid: CommitId, step: PlanStep, crashAt: Option<int>): Outcome {
    var aid := AidOf(k, cid, step.ordinal);
    if aid in db.actions then
      if db.actions[aid].argsFp.args == step.args then Dedup(db.actions[aid].result) else ContentMismatch
    else if step.args.ReceiptArgs? then MissingArgument
    else if crashAt == Some(step.ordinal) then Crashed
    else Committed(Some(Charged(step.args.order, step.args.amount)))
  }

  function Stops(outcome: Outcome): bool {
    !outcome.Committed? && !outcome.Dedup?
  }

  /** The first step that ends the run, or the number of steps. */
  function StopAt(db: Db, k: TurnKey, cid: CommitId, steps: Plan, crashAt: Option<int>): (n: nat)
    ensures n <= |steps|
    ensures forall j :: 0 <= j < n ==> !Stops(AnswerAt(db, k, cid, steps[j], crashAt))
    ensures n < |steps| ==> Stops(AnswerAt(db, k, cid, steps[n], crashAt))
  {
    if steps == [] || Stops(AnswerAt(db, k, cid, steps[0], crashAt)) then 0
    else 1 + StopAt(db, k, cid, steps[1..], crashAt)
  }

  /** The charge and action rows of the steps that have none, in order. */
  function Claimed(db: Db, k: TurnKey, cid: CommitId, steps: Plan, epoch: nat): Db
    decreases |steps|
  {
    if steps == [] then db
    else
      var aid, args := AidOf(k, cid, steps[0].ordinal), steps[0].args;
      if aid in db.actions || args.ReceiptArgs? then Claimed(db, k, cid, steps[1..], epoch)
      else
        var row := ActionRow(FingerprintOf(args), Transactional, Some(Charged(args.order, args.amount)), epoch);
        var charge := ChargeRow(args.order, args.amount, aid);
        Claimed(db.(actions := db.actions[aid := row], charges := db.charges + [charge]), k, cid, steps[1..], epoch)
  }

  function Answers(db: Db, k: TurnKey, cid: CommitId, steps: Plan, crashAt: Option<int>): seq<Outcome> {
    seq(|steps|, j requires 0 <= j < |steps| => AnswerAt(db, k, cid, steps[j], crashAt))
  }

  /** The turn is marked committed, if it was begun. */
  function Marked(db: Db, k: TurnKey): Db {
    if k in db.turns then
      var t := db.turns[k];
      db.(turns := db.turns[k := TurnRow(t.commitId, t.plan, true)])
    else db
  }

  /** A pass over the steps by the holder of the newest epoch. */
  ghost predicate Passes(db: Db, k: TurnKey, cid: CommitId, steps: Plan, epoch: nat, crashAt: Option<int>,
                         done: seq<Outcome>, db': Db, r: RunResult) {
    var n := StopAt(db, k, cid, steps, crashAt);
    if n == |steps| then
      && db' == Marked(Claimed(db, k, cid, steps, epoch), k)
      && r == Returned(done + Answers(db, k, cid, steps, crashAt))
    else
      && db' == Claimed(db, k, cid, steps[..n], epoch)
      && r == Raised(AnswerAt(db, k, cid, steps[n], crashAt))
  }

  ghost predicate SameRowsBut(db: Db, db1: Db, aid: Aid) {
    forall a :: a != aid ==>
      (a in db1.actions <==> a in db.actions) && (a in db.actions ==> db1.actions[a] == db.actions[a])
  }

  lemma {:induction false} SameStop(db: Db, db1: Db, k: TurnKey, cid: CommitId, steps: Plan, crashAt: Option<int>)
    requires forall j :: 0 <= j < |steps| ==>
               AnswerAt(db1, k, cid, steps[j], crashAt) == AnswerAt(db, k, cid, steps[j], crashAt)
    ensures StopAt(db1, k, cid, steps, crashAt) == StopAt(db, k, cid, steps, crashAt)
  {
    hide AnswerAt;
    if steps != [] {
      SameStop(db, db1, k, cid, steps[1..], crashAt);
    }
  }

  /** The answers of the later steps do not depend on the first. */
  lemma LaterAnswers(db: Db, db1: Db, k: TurnKey, cid: CommitId, steps: Plan, crashAt: Option<int>,
                                        ordinal: int)
    requires forall j :: 0 <= j < |steps| ==> steps[j].ordinal != ordinal
    requires SameRowsBut(db, db1, AidOf(k, cid, ordinal))
    ensures Answers(db1, k, cid, steps, crashAt) == Answers(db, k, cid, steps, crashAt)
    ensures StopAt(db1, k, cid, steps, crashAt) == StopAt(db, k, cid, steps, crashAt)
  {
    forall j | 0 <= j < |steps|
      ensures AnswerAt(db1, k, cid, steps[j], crashAt) == AnswerAt(db, k, cid, steps[j], crashAt)
    {
      assert AidOf(k, cid, steps[j].ordinal) != AidOf(k, cid, ordinal);
    }
    SameStop(db, db1, k, cid, steps, crashAt);
  }

  lemma StepIs(db: Db, k: TurnKey, cid: CommitId, step: PlanStep, epoch: nat, crashAt: Option<int>)
    requires k in db.owner && db.owner[k] == epoch
    ensures var (db1, outcome) := ChargeTx(db, k, cid, step, epoch, crashAt == Some(step.ordinal));
            && outcome == AnswerAt(db, k, cid, step, crashAt)
            && (outcome.Raised() <==> Stops(outcome))
            && (outcome.Raised() ==> db1 == db)
            && (!outcome.Raised() ==> db1 == Claimed(db, k, cid, [step], epoch))
            && db1.owner == db.owner
            && SameRowsBut(db, db1, AidOf(k, cid, step.ordinal))
  {
    assert [step][1..] == [];
  }

  lemma ClaimedHead(db: Db, k: TurnKey, cid: CommitId, steps: Plan, epoch: nat)
    requires steps != []
    ensures Claimed(db, k, cid, steps, epoch) ==
            Claimed(Claimed(db, k, cid, [steps[0]], epoch), k, cid, steps[1..], epoch)
  {
    assert [steps[0]][1..] == [];
  }

  lemma {:induction false} RunStepsPasses(db: Db, k: TurnKey, cid: CommitId, steps: Plan, epoch: nat,
                                          crashAt: Option<int>, done: seq<Outcome>)
    requires k in db.owner && db.owner[k] == epoch && DistinctOrdinals(steps)
    ensures var (db', r) := RunSteps(db, k, cid, steps, epoch, crashAt, done);
            Passes(db, k, cid, steps, epoch, crashAt, done, db', r)
    decreases |steps|
  {
    hide ChargeTx, AnswerAt;
    if steps == [] {
      assert done + Answers(db, k, cid, steps, crashAt) == done;
    } else {
      StepIs(db, k, cid, steps[0], epoch, crashAt);
      var (db1, outcome) := ChargeTx(db, k, cid, steps[0], epoch, crashAt == Some(steps[0].ordinal));
      if !outcome.Raised() {
        RunStepsPasses(db1, k, cid, steps[1..], epoch, crashAt, done + [outcome]);
        LaterAnswers(db, db1, k, cid, steps[1..], crashAt, steps[0].ordinal);
        hide Stops, Marked, RunSteps;
        PassesMore(db, k, cid, steps, epoch, crashAt, done, db1, outcome);
      } else {
        assert steps[..0] == [];
      }
    }
  }

  lemma PassesMore(db: Db, k: TurnKey, cid: CommitId, steps: Plan, epoch: nat, crashAt: Option<int>, done: seq<Outcome>,
                   db1: Db, outcome: Outcome)
    requires steps != [] && outcome == AnswerAt(db, k, cid, steps[0], crashAt) && !Stops(outcome)
    requires db1 == Claimed(db, k, cid, [steps[0]], epoch)
    requires Answers(db1, k, cid, steps[1..], crashAt) == Answers(db, k, cid, steps[1..], crashAt)
    requires StopAt(db1, k, cid, steps[1..], crashAt) == StopAt(db, k, cid, steps[1..], crashAt)
    ensures forall db', r :: Passes(db1, k, cid, steps[1..], epoch, crashAt, done + [outcome], db', r) ==>
              Passes(db, k, cid, steps, epoch, crashAt, done, db', r)
  {
    var n := StopAt(db, k, cid, steps, crashAt);
    assert n == 1 + StopAt(db, k, cid, steps[1..], crashAt);
    ClaimedHead(db, k, cid, steps, epoch);
    assert steps[..n][1..] == steps[1..][..n - 1];
    ClaimedHead(db, k, cid, steps[..n], epoch);
    if n < |steps| {
      assert Answers(db, k, cid, steps[1..], crashAt)[n - 1] == AnswerAt(db, k, cid, steps[n], crashAt);
      assert Answers(db1, k, cid, steps[1..], crashAt)[n - 1] == AnswerAt(db1, k, cid, steps[1..][n - 1], crashAt);
    }
    assert done + Answers(db, k, cid, steps, crashAt) == done + [outcome] + Answers(db, k, cid, steps[1..], crashAt);
    hide Claimed, AnswerAt, StopAt, Marked, Stops, Answers;
  }

  /** The tables on which the pass starts: the next epoch is taken unless one is given, and a plan that is given is
      stored unless there is one. */
  function Started(db: Db, k: TurnKey, plan: Option<Plan>, epoch: Option<nat>): Db {
    var next := (if k in db.owner then db.owner[k] else 0) + 1;
    var owned := if epoch.None? then Db(db.owner[k := next], db.turns, db.actions, db.charges) else db;
    if plan.Some? && k !in db.turns then
      Db(owned.owner, db.turns[k := TurnRow(CommitIdOf(plan.value), plan.value, false)], db.actions, db.charges)
    else owned
  }

  /** ONE RUN, EXACTLY, from any tables: with its own plan and that plan's commit id if it brings one, and otherwise
      with the stored ones; under the epoch it is given, or the next one.  Under an epoch that is not the newest it is
      refused at its first step and leaves the tables as they started.  Otherwise the steps up to the first that must
      stop it get the rows that they lack, and it raises there, or returns every answer in order and marks the turn. */
  lemma RunTurnIs(db: Db, k: TurnKey, plan: Option<Plan>, epoch: Option<nat>, crashAt: Option<int>)
    requires plan.Some? ==> DistinctOrdinals(plan.value)
    requires plan.None? && k in db.turns ==> DistinctOrdinals(db.turns[k].plan)
    ensures var (db', r) := RunTurnDb(db, k, plan, epoch, crashAt);
            var start := Started(db, k, plan, epoch);
            if plan.None? && k !in db.turns then db' == start && r == NoPlan
            else
              var steps := if plan.Some? then plan.value else db.turns[k].plan;
              var cid := if plan.Some? then CommitIdOf(steps) else db.turns[k].commitId;
              var current := k in start.owner && (epoch.None? || start.owner[k] == epoch.value);
              if !current then
                if steps == [] then db' == Marked(start, k) && r == Returned([])
                else db' == start && r == Raised(StaleOwner)
              else Passes(start, k, cid, steps, start.owner[k], crashAt, [], db', r)
  {
    var start := Started(db, k, plan, epoch);
    assert start == (var owned := if epoch.None? then AcquireDb(db, k) else db;
                     if plan.Some? then BeginDb(owned, k, plan.value) else owned);
    if plan.Some? || k in db.turns {
      var steps := if plan.Some? then plan.value else db.turns[k].plan;
      var cid := if plan.Some? then CommitIdOf(steps) else db.turns[k].commitId;
      hide Passes, Started;
      if k in start.owner && (epoch.None? || start.owner[k] == epoch.value) {
        RunStepsPasses(start, k, cid, steps, start.owner[k], crashAt, []);
        hide RunSteps;
      }
    }
  }

  // ---- one overlay worker alone ----

  /** The worker is armed to die in this step, and the step has a file to publish. */
  predicate DiesIn(fs: Files, k: TurnKey, cid: CommitId, step: PlanStep, crashAt: Option<int>, crash: OverlayCrash) {
    crashAt == Some(step.ordinal) && crash != NoCrash && AidOf(k, cid, step.ordinal) !in fs.committed
  }

  /** The step in which the worker dies, or the number of steps. */
  function DeathAt(fs: Files, k: TurnKey, cid: CommitId, steps: Plan, crashAt: Option<int>, crash: OverlayCrash)
    : (n: nat)
    ensures n <= |steps|
    ensures forall j :: 0 <= j < n ==> !DiesIn(fs, k, cid, steps[j], crashAt, crash)
    ensures n < |steps| ==> DiesIn(fs, k, cid, steps[n], crashAt, crash)
  {
    if steps == [] || DiesIn(fs, k, cid, steps[0], crashAt, crash) then 0
    else 1 + DeathAt(fs, k, cid, steps[1..], crashAt, crash)
  }

  /** The action rows of the steps that have none. */
  function Recorded(db: Db, k: TurnKey, cid: CommitId, steps: Plan, epoch: nat): Db
    decreases |steps|
  {
    if steps == [] then db
    else
      var aid := AidOf(k, cid, steps[0].ordinal);
      var row := ActionRow(FingerprintOf(steps[0].args), Overlay, None, epoch);
      var db1 := if aid in db.actions then db else db.(actions := db.actions[aid := row]);
      Recorded(db1, k, cid, steps[1..], epoch)
  }

  /** The complete files of the steps that have none, and no temp file of theirs. */
  function Published(fs: Files, k: TurnKey, cid: CommitId, steps: Plan, pid: int, epoch: nat): Files
    decreases |steps|
  {
    if steps == [] then fs
    else
      var aid := AidOf(k, cid, steps[0].ordinal);
      var fs1 := if aid in fs.committed then fs
                 else Files(fs.committed[aid := Canon(steps[0].args)], fs.overlay - {TmpName(aid, pid, epoch)});
      Published(fs1, k, cid, steps[1..], pid, epoch)
  }

  /** What death leaves of a step: its temp file, or its final file without the action row. */
  function Torn(fs: Files, k: TurnKey, cid: CommitId, step: PlanStep, pid: int, epoch: nat, crash: OverlayCrash)
    : Files
  {
    var aid := AidOf(k, cid, step.ordinal);
    var tmp := TmpName(aid, pid, epoch);
    if crash == HardAfterWrite then Files(fs.committed, fs.overlay[tmp := Canon(step.args)])
    else Files(fs.committed[aid := Canon(step.args)], fs.overlay - {tmp})
  }

  ghost predicate PassesOverlay(db: Db, fs: Files, k: TurnKey, cid: CommitId, steps: Plan, epoch: nat, pid: int,
                                crashAt: Option<int>, crash: OverlayCrash, db': Db, fs': Files, alive: bool) {
    var n := DeathAt(fs, k, cid, steps, crashAt, crash);
    && (alive <==> n == |steps|)
    && if alive then
         db' == Marked(Recorded(db, k, cid, steps, epoch), k) && fs' == Published(fs, k, cid, steps, pid, epoch)
       else
         && db' == Recorded(db, k, cid, steps[..n], epoch)
         && fs' == Torn(Published(fs, k, cid, steps[..n], pid, epoch), k, cid, steps[n], pid, epoch, crash)
  }

  lemma {:induction false} SameDeath(fs: Files, fs1: Files, k: TurnKey, cid: CommitId, steps: Plan,
                                     crashAt: Option<int>, crash: OverlayCrash)
    requires forall j :: 0 <= j < |steps| ==>
               (AidOf(k, cid, steps[j].ordinal) in fs.committed <==> AidOf(k, cid, steps[j].ordinal) in fs1.committed)
    ensures DeathAt(fs1, k, cid, steps, crashAt, crash) == DeathAt(fs, k, cid, steps, crashAt, crash)
  {
    if steps != [] {
      SameDeath(fs, fs1, k, cid, steps[1..], crashAt, crash);
    }
  }

  lemma OverlayStepIs(db: Db, fs: Files, k: TurnKey, cid: CommitId, step: PlanStep, epoch: nat, pid: int,
                      crashAt: Option<int>, crash: OverlayCrash)
    ensures var armed := if crashAt == Some(step.ordinal) then crash else NoCrash;
            var (db1, fs1, outcome) := OverlayCall(db, fs, k, cid, step, epoch, pid, armed);
            && (outcome.Crashed? <==> DiesIn(fs, k, cid, step, crashAt, crash))
            && (outcome.Crashed? ==> db1 == db && fs1 == Torn(fs, k, cid, step, pid, epoch, crash))
            && (!outcome.Crashed? ==>
                  db1 == Recorded(db, k, cid, [step], epoch) && fs1 == Published(fs, k, cid, [step], pid, epoch))
            && (forall a :: a != AidOf(k, cid, step.ordinal) ==> (a in fs1.committed <==> a in fs.committed))
  {
    var armed := if crashAt == Some(step.ordinal) then crash else NoCrash;
    OverlayAnswers(db, fs, k, cid, step, epoch, pid, armed);
    hide OverlayCall, Canon;
    assert [step][1..] == [];
  }

  lemma OverlayHead(db: Db, fs: Files, k: TurnKey, cid: CommitId, steps: Plan, epoch: nat, pid: int)
    requires steps != []
    ensures Recorded(db, k, cid, steps, epoch) ==
            Recorded(Recorded(db, k, cid, [steps[0]], epoch), k, cid, steps[1..], epoch)
    ensures Published(fs, k, cid, steps, pid, epoch) ==
            Published(Published(fs, k, cid, [steps[0]], pid, epoch), k, cid, steps[1..], pid, epoch)
  {
    hide Canon;
    assert [steps[0]][1..] == [];
  }

  lemma PassesOverlayMore(db: Db, fs: Files, k: TurnKey, cid: CommitId, steps: Plan, epoch: nat, pid: int,
                          crashAt: Option<int>, crash: OverlayCrash, db1: Db, fs1: Files, db': Db, fs': Files,
                          alive: bool)
    requires steps != [] && !DiesIn(fs, k, cid, steps[0], crashAt, crash)
    requires db1 == Recorded(db, k, cid, [steps[0]], epoch) && fs1 == Published(fs, k, cid, [steps[0]], pid, epoch)
    requires DeathAt(fs1, k, cid, steps[1..], crashAt, crash) == DeathAt(fs, k, cid, steps[1..], crashAt, crash)
    requires PassesOverlay(db1, fs1, k, cid, steps[1..], epoch, pid, crashAt, crash, db', fs', alive)
    ensures PassesOverlay(db, fs, k, cid, steps, epoch, pid, crashAt, crash, db', fs', alive)
  {
    var n := DeathAt(fs, k, cid, steps, crashAt, crash);
    assert n == 1 + DeathAt(fs, k, cid, steps[1..], crashAt, crash);
    assert steps[..n][1..] == steps[1..][..n - 1];
    OverlayHead(db, fs, k, cid, steps, epoch, pid);
    OverlayHead(db, fs, k, cid, steps[..n], epoch, pid);
    hide Recorded, Published, DeathAt, Torn, Marked, DiesIn;
  }

  lemma {:induction false} OverlayStepsPass(db: Db, fs: Files, k: TurnKey, cid: CommitId, steps: Plan, epoch: nat,
                                            pid: int, crashAt: Option<int>, crash: OverlayCrash)
    requires DistinctOrdinals(steps)
    ensures var (db', fs', alive) := OverlaySteps(db, fs, k, cid, steps, epoch, pid, crashAt, crash);
            PassesOverlay(db, fs, k, cid, steps, epoch, pid, crashAt, crash, db', fs', alive)
    decreases |steps|
  {
    hide OverlayCall, Torn;
    if steps != [] {
      var armed := if crashAt == Some(steps[0].ordinal) then crash else NoCrash;
      OverlayStepIs(db, fs, k, cid, steps[0], epoch, pid, crashAt, crash);
      var (db1, fs1, outcome) := OverlayCall(db, fs, k, cid, steps[0], epoch, pid, armed);
      hide DiesIn;
      if !outcome.Crashed? {
        OverlayStepsPass(db1, fs1, k, cid, steps[1..], epoch, pid, crashAt, crash);
        SameDeath(fs, fs1, k, cid, steps[1..], crashAt, crash);
        hide PassesOverlay;
        var (db', fs', alive) := OverlaySteps(db, fs, k, cid, steps, epoch, pid, crashAt, crash);
        PassesOverlayMore(db, fs, k, cid, steps, epoch, pid, crashAt, crash, db1, fs1, db', fs', alive);
      } else {
        assert steps[..0] == [];
      }
    }
  }

  /** ONE OVERLAY WORKER, EXACTLY, from any tables and files: it takes the next epoch and the stored plan; it dies in
      the first step that it is armed to die in and that has a file to publish, and otherwise every step has its
      complete file and its row, and the turn is marked. */
  lemma OverlayRunIs(db: Db, fs: Files, k: TurnKey, pid: int, crashAt: Option<int>, crash: OverlayCrash)
    requires k in db.turns ==> DistinctOrdinals(db.turns[k].plan)
    ensures var (db', fs', end) := OverlayRun(db, fs, k, pid, crashAt, crash);
            var start := Started(db, k, None, None);
            if k !in db.turns then db' == start && fs' == fs && end == Swallowed
            else
              && (end == TurnCommitted || end == Died)
              && PassesOverlay(start, fs, k, db.turns[k].commitId, db.turns[k].plan, start.owner[k], pid, crashAt,
                               crash, db', fs', end == TurnCommitted)
  {
    var start := Started(db, k, None, None);
    assert start == AcquireDb(db, k);
    if k in db.turns {
      OverlayStepsPass(start, fs, k, db.turns[k].commitId, db.turns[k].plan, start.owner[k], pid, crashAt, crash);
    }
    hide OverlaySteps, PassesOverlay;
  }
}
