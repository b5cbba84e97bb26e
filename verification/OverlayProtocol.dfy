/** Any number of coordinators racing to publish the receipt files of any number of turns.

    A file effect cannot share a transaction with its action row, so every file operation and every
    commit is a step of its own, and a temp write can be cut short.  No step consults the fence. */
module OverlayProtocol {
  import opened Identity
  import opened Dtx
  import opened Plans

  /** Where a coordinator stands within the current action of its plan. */
  datatype Phase =
    | Check       // about to look for the final file
    | Opened      // its temp file is open, and holds some prefix of the text
    | Written     // its temp file is complete
    | Published   // the final file exists, its row is not yet recorded by this coordinator

  datatype Worker =
    | Down
    | Acquired(key: TurnKey, epoch: nat, pid: int)
    | At(key: TurnKey, epoch: nat, pid: int, commitId: CommitId, plan: Plan, next: nat, phase: Phase)
    | Failed
    | Finished(key: TurnKey, epoch: nat, pid: int)
  {
    predicate Holds(k: TurnKey, e: nat) {
      !Down? && !Failed? && key == k && epoch == e
    }
  }

  datatype State = State(db: Db, fs: Files, workers: seq<Worker>)

  datatype Event =
    | Begin(key: TurnKey)
    | Acquire(who: nat, key: TurnKey, pid: int)
    | Run(who: nat)                 // the next action of the program, performed completely
    | TornWrite(who: nat, n: nat)   // the first n characters of the text reach the temp file
    | Exit(who: nat)                // the process dies, or ends, at any point

  function Init(n: nat): State {
    State(Db(map[], map[], map[], []), Files(map[], map[]), seq(n, _ => Down))
  }

  function Put(s: State, db: Db, fs: Files, who: nat, w: Worker): State
    requires who < |s.workers|
  {
    State(db, fs, s.workers[who := w])
  }

  function TmpOf(w: Worker): TmpName
    requires w.At? && w.next < |w.plan|
  {
    TmpName(AidOf(w.key, w.commitId, w.plan[w.next].ordinal), w.pid, w.epoch)
  }

  function RunAction(s: State, who: nat): State
    requires who < |s.workers| && s.workers[who].At? && s.workers[who].next < |s.workers[who].plan|
  {
    var w := s.workers[who];
    var step, tmp := w.plan[w.next], TmpOf(w);
    match w.phase
    case Check =>
      if tmp.aid in s.fs.committed then Put(s, s.db, s.fs, who, w.(phase := Published))
      else Put(s, s.db, WriteTmp(s.fs, tmp, ""), who, w.(phase := Opened))
    case Opened =>
      Put(s, s.db, WriteTmp(s.fs, tmp, Canon(step.args)), who, w.(phase := Written))
    case Written =>
      if tmp in s.fs.overlay then Put(s, s.db, Publish(s.fs, tmp), who, w.(phase := Published))
      else Put(s, s.db, s.fs, who, Failed)
    case Published =>
      Put(s, RecordOverlay(s.db, tmp.aid, step.args, w.epoch), s.fs, who,
          At(w.key, w.epoch, w.pid, w.commitId, w.plan, w.next + 1, Check))
  }

  function RunNext(s: State, who: nat): State
    requires who < |s.workers|
  {
    var w := s.workers[who];
    if w.Acquired? then
      if w.key in s.db.turns then
        Put(s, s.db, s.fs, who, At(w.key, w.epoch, w.pid, s.db.turns[w.key].commitId, s.db.turns[w.key].plan, 0, Check))
      else Put(s, s.db, s.fs, who, Failed)
    else if w.At? && w.next < |w.plan| then RunAction(s, who)
    else if w.At? then Put(s, CommitTurnDb(s.db, w.key), s.fs, who, Finished(w.key, w.epoch, w.pid))
    else s
  }

  function Step(plans: PlanTable, s: State, event: Event): (s': State)
    ensures |s'.workers| == |s.workers|
  {
    match event
    case Begin(k) =>
      if k in plans then s.(db := BeginDb(s.db, k, plans[k])) else s
    case Acquire(who, k, pid) =>
      if who < |s.workers| && s.workers[who].Down? then
        var db' := AcquireDb(s.db, k);
        Put(s, db', s.fs, who, Acquired(k, OwnerOf(db', k), pid))
      else s
    case Run(who) =>
      if who < |s.workers| then RunNext(s, who) else s
    case TornWrite(who, n) =>
      if who < |s.workers| && s.workers[who].At? && s.workers[who].next < |s.workers[who].plan|
         && s.workers[who].phase.Opened? then
        var w := s.workers[who];
        var text := Canon(w.plan[w.next].args);
        Put(s, s.db, WriteTmp(s.fs, TmpOf(w), if n <= |text| then text[..n] else text), who, w)
      else s
    case Exit(who) =>
      if who < |s.workers| then Put(s, s.db, s.fs, who, Down) else s
  }

  function Exec(plans: PlanTable, s: State, events: seq<Event>): (s': State)
    ensures |s'.workers| == |s.workers|
    decreases |events|
  {
    if events == [] then s else Exec(plans, Step(plans, s, events[0]), events[1..])
  }

  /** THE ADVERSARY: in every state any process may be gone with tables and files as they are, and a write that is under
      way may have reached the temp file up to any length. */
  lemma AdversaryMay(plans: PlanTable, s: State, who: nat, n: nat)
    requires who < |s.workers|
    ensures Step(plans, s, Exit(who)) == State(s.db, s.fs, s.workers[who := Down])
    ensures var w := s.workers[who];
            w.At? && w.next < |w.plan| && w.phase.Opened? && n <= |Canon(w.plan[w.next].args)| ==>
              var tmp := TmpName(AidOf(w.key, w.commitId, w.plan[w.next].ordinal), w.pid, w.epoch);
              Step(plans, s, TornWrite(who, n)) ==
                s.(fs := s.fs.(overlay := s.fs.overlay[tmp := Canon(w.plan[w.next].args)[..n]]))
  {
    hide Canon;
    assert s.workers[who := s.workers[who]] == s.workers;
  }

  // ---- the inductive invariant ----

  ghost predicate FileOk(plans: PlanTable, db: Db, fs: Files, a: Aid)
    requires a in fs.committed
  {
    && KeyOf(a) in db.turns && StoredPlanOk(plans, db, KeyOf(a))
    && exists i :: 0 <= i < |plans[KeyOf(a)]| && a == AidAt(KeyOf(a), plans[KeyOf(a)], i)
         && fs.committed[a] == Canon(plans[KeyOf(a)][i].args)
  }

  ghost predicate RecordedBefore(db: Db, k: TurnKey, plan: Plan, n: nat)
    requires n <= |plan|
  {
    forall i :: 0 <= i < n ==> AidAt(k, plan, i) in db.actions
  }

  /** Publishing is at most one action ahead of recording. */
  ghost predicate PrefixOk(plans: PlanTable, db: Db, fs: Files, k: TurnKey)
    requires k in plans
  {
    forall j :: 0 <= j < |plans[k]| && AidAt(k, plans[k], j) in fs.committed ==> RecordedBefore(db, k, plans[k], j)
  }

  ghost predicate DbOk(plans: PlanTable, db: Db, fs: Files) {
    && (forall k :: k in db.turns ==> StoredPlanOk(plans, db, k) && PrefixOk(plans, db, fs, k))
    && (forall k :: k in db.turns && db.turns[k].committed ==> RecordedBefore(db, k, plans[k], |plans[k]|))
    && (forall a :: a in fs.committed ==> FileOk(plans, db, fs, a))
    && (forall a :: a in db.actions ==> a in fs.committed && db.actions[a].klass == Overlay)
  }

  ghost predicate WorkerOk(plans: PlanTable, db: Db, fs: Files, w: Worker) {
    match w
    case Down => true
    case Failed => true
    case Acquired(k, e, _) => 1 <= e <= OwnerOf(db, k)
    case At(k, e, pid, cid, plan, next, phase) =>
      && 1 <= e <= OwnerOf(db, k)
      && StoredPlanOk(plans, db, k) && plan == plans[k] && cid == CommitIdOf(plan)
      && next <= |plan| && RecordedBefore(db, k, plan, next)
      && (next == |plan| ==> phase == Check)
      && (next < |plan| ==>
            && (phase.Opened? ==> TmpOf(w) in fs.overlay && fs.overlay[TmpOf(w)] <= Canon(plan[next].args))
            && (phase.Written? ==> TmpOf(w) in fs.overlay && fs.overlay[TmpOf(w)] == Canon(plan[next].args))
            && (phase.Published? ==> AidAt(k, plan, next) in fs.committed))
    case Finished(k, e, _) =>
      && 1 <= e <= OwnerOf(db, k)
      && StoredPlanOk(plans, db, k) && RecordedBefore(db, k, plans[k], |plans[k]|) && db.turns[k].committed
  }

  ghost predicate OneHolderPerEpoch(ws: seq<Worker>) {
    forall i, j, k, e :: 0 <= i < |ws| && 0 <= j < |ws| && ws[i].Holds(k, e) && ws[j].Holds(k, e) ==> i == j
  }

  ghost predicate Inv(plans: PlanTable, s: State) {
    && DbOk(plans, s.db, s.fs)
    && (forall i :: 0 <= i < |s.workers| ==> WorkerOk(plans, s.db, s.fs, s.workers[i]))
    && OneHolderPerEpoch(s.workers)
  }

  // ---- every event keeps the invariant ----

  /** What the other coordinators see of a step: tables and final files only move forward, and only
      the temp file `mine` may change. */
  ghost predicate Grows(plans: PlanTable, db: Db, fs: Files, db': Db, fs': Files, mine: Option<TmpName>) {
    && (forall k :: && OwnerOf(db, k) <= OwnerOf(db', k)
                    && (StoredPlanOk(plans, db, k) ==>
                          StoredPlanOk(plans, db', k) && (db.turns[k].committed ==> db'.turns[k].committed)))
    && db.actions.Keys <= db'.actions.Keys
    && fs.committed.Keys <= fs'.committed.Keys
    && (forall t :: t in fs.overlay && Some(t) != mine ==> t in fs'.overlay && fs'.overlay[t] == fs.overlay[t])
  }

  lemma WorkerKept(plans: PlanTable, db: Db, fs: Files, db': Db, fs': Files, mine: Option<TmpName>, w: Worker)
    requires Grows(plans, db, fs, db', fs', mine) && WorkerOk(plans, db, fs, w)
    requires mine.Some? ==> !w.Holds(KeyOf(mine.value.aid), mine.value.epoch)
    ensures WorkerOk(plans, db', fs', w)
  {
  }

  lemma PutKeepsInv(plans: PlanTable, s: State, db': Db, fs': Files, mine: Option<TmpName>, who: nat, w: Worker)
    requires Inv(plans, s) && who < |s.workers| && DbOk(plans, db', fs')
    requires Grows(plans, s.db, s.fs, db', fs', mine) && WorkerOk(plans, db', fs', w)
    requires mine.Some? ==> s.workers[who].Holds(KeyOf(mine.value.aid), mine.value.epoch)
    requires forall i, k, e :: 0 <= i < |s.workers| && w.Holds(k, e) && s.workers[i].Holds(k, e) ==> i == who
    ensures Inv(plans, Put(s, db', fs', who, w))
  {
    var s' := Put(s, db', fs', who, w);
    forall i | 0 <= i < |s'.workers| ensures WorkerOk(plans, db', fs', s'.workers[i]) {
      if i != who {
        WorkerKept(plans, s.db, s.fs, db', fs', mine, s.workers[i]);
      }
    }
  }

  /** Changes that touch neither rows nor files of actions. */
  lemma DbKept(plans: PlanTable, db: Db, fs: Files, db': Db, fs': Files)
    requires DbOk(plans, db, fs) && db'.actions == db.actions && fs'.committed == fs.committed
    requires forall k :: k in db.turns ==> k in db'.turns && db'.turns[k].plan == db.turns[k].plan
                                            && db'.turns[k].commitId == db.turns[k].commitId
    requires forall k :: k in db'.turns ==> StoredPlanOk(plans, db', k)
    requires forall k :: k in db'.turns && db'.turns[k].committed ==>
        k in plans && RecordedBefore(db, k, plans[k], |plans[k]|)
    ensures DbOk(plans, db', fs')
  {
    forall k | k in db'.turns ensures PrefixOk(plans, db', fs', k) {
      if k in db.turns {
        assert PrefixOk(plans, db, fs, k);
        forall j | 0 <= j < |plans[k]| && AidAt(k, plans[k], j) in fs'.committed
          ensures RecordedBefore(db', k, plans[k], j)
        {
          assert RecordedBefore(db, k, plans[k], j);
        }
      } else {
        forall j | 0 <= j < |plans[k]| ensures AidAt(k, plans[k], j) !in fs'.committed {
          assert KeyOf(AidAt(k, plans[k], j)) == k;
        }
      }
    }
    forall a | a in fs'.committed ensures FileOk(plans, db', fs', a) {
      assert FileOk(plans, db, fs, a);
    }
    forall k | k in db'.turns && db'.turns[k].committed ensures RecordedBefore(db', k, plans[k], |plans[k]|) {
      assert RecordedBefore(db, k, plans[k], |plans[k]|);
    }
  }

  /** Publishing the complete text of the next action, whose predecessors are recorded. */
  lemma PublishKeepsDbOk(plans: PlanTable, db: Db, fs: Files, tmp: TmpName, k: TurnKey, i: nat)
    requires PlansOk(plans) && DbOk(plans, db, fs) && k in db.turns && i < |plans[k]|
    requires RecordedBefore(db, k, plans[k], i)
    requires tmp in fs.overlay && tmp.aid == AidAt(k, plans[k], i) && fs.overlay[tmp] == Canon(plans[k][i].args)
    ensures DbOk(plans, db, Publish(fs, tmp))
  {
    var fs' := Publish(fs, tmp);
    AidsDistinct(k, plans[k]);
    forall a | a in fs'.committed ensures FileOk(plans, db, fs', a) {
      if a == tmp.aid {
        assert KeyOf(a) == k;
      } else {
        assert FileOk(plans, db, fs, a);
      }
    }
    forall k' | k' in db.turns ensures PrefixOk(plans, db, fs', k') {
      assert PrefixOk(plans, db, fs, k');
      forall j | 0 <= j < |plans[k']| && AidAt(k', plans[k'], j) in fs'.committed
        ensures RecordedBefore(db, k', plans[k'], j)
      {
        if AidAt(k', plans[k'], j) == tmp.aid {
          assert k' == k && j == i;
        }
      }
    }
  }

  lemma RecordKeepsPrefix(plans: PlanTable, db: Db, fs: Files, a: Aid, args: Args, epoch: nat, k: TurnKey)
    requires k in plans && PrefixOk(plans, db, fs, k)
    ensures PrefixOk(plans, RecordOverlay(db, a, args, epoch), fs, k)
  {
    forall j | 0 <= j < |plans[k]| && AidAt(k, plans[k], j) in fs.committed
      ensures RecordedBefore(RecordOverlay(db, a, args, epoch), k, plans[k], j)
    {
      assert RecordedBefore(db, k, plans[k], j);
    }
  }

  lemma FileKept(plans: PlanTable, db: Db, db': Db, fs: Files, a: Aid)
    requires a in fs.committed && FileOk(plans, db, fs, a) && db'.turns == db.turns
    ensures FileOk(plans, db', fs, a)
  {
  }

  lemma RecordKeepsTurn(plans: PlanTable, db: Db, fs: Files, a: Aid, args: Args, epoch: nat, k: TurnKey)
    requires DbOk(plans, db, fs) && k in db.turns
    ensures var db' := RecordOverlay(db, a, args, epoch);
            && k in db'.turns && StoredPlanOk(plans, db', k) && PrefixOk(plans, db', fs, k)
            && (db'.turns[k].committed ==> RecordedBefore(db', k, plans[k], |plans[k]|))
  {
    hide FileOk;
    assert StoredPlanOk(plans, db, k);
    RecordKeepsPrefix(plans, db, fs, a, args, epoch, k);
    hide PrefixOk;
    if db.turns[k].committed {
      assert RecordedBefore(db, k, plans[k], |plans[k]|);
    }
  }

  lemma RecordKeepsDbOk(plans: PlanTable, db: Db, fs: Files, a: Aid, args: Args, epoch: nat)
    requires DbOk(plans, db, fs) && a in fs.committed
    ensures DbOk(plans, RecordOverlay(db, a, args, epoch), fs)
  {
    hide FileOk, PrefixOk, RecordedBefore;
    var db' := RecordOverlay(db, a, args, epoch);
    forall k | k in db'.turns
      ensures StoredPlanOk(plans, db', k) && PrefixOk(plans, db', fs, k)
      ensures db'.turns[k].committed ==> RecordedBefore(db', k, plans[k], |plans[k]|)
    {
      RecordKeepsTurn(plans, db, fs, a, args, epoch, k);
    }
    forall b | b in fs.committed ensures FileOk(plans, db', fs, b) {
      FileKept(plans, db, db', fs, b);
    }
  }

  /** A worker that keeps its epoch, or gives it up, stays its only holder. */
  lemma HoldersApart(plans: PlanTable, s: State, who: nat, w: Worker)
    requires Inv(plans, s) && who < |s.workers|
    requires w.Down? || w.Failed? || s.workers[who].Holds(w.key, w.epoch)
    ensures forall i, k, e :: 0 <= i < |s.workers| && w.Holds(k, e) && s.workers[i].Holds(k, e) ==> i == who
  {
  }

  /** Looking for the final file, opening the temp file, or writing it: only the temp file changes. */
  lemma TmpMovesOn(plans: PlanTable, s: State, who: nat)
    requires who < |s.workers| && WorkerOk(plans, s.db, s.fs, s.workers[who])
    requires s.workers[who].At? && s.workers[who].next < |s.workers[who].plan|
    requires s.workers[who].phase.Check? || s.workers[who].phase.Opened?
    ensures var w, s' := s.workers[who], RunAction(s, who);
            && s'.db == s.db && s'.fs.committed == s.fs.committed
            && Grows(plans, s.db, s.fs, s.db, s'.fs, Some(TmpOf(w)))
            && s' == Put(s, s.db, s'.fs, who, s'.workers[who])
            && s'.workers[who].At? && s'.workers[who].Holds(w.key, w.epoch)
            && WorkerOk(plans, s.db, s'.fs, s'.workers[who])
  {
    hide Canon;
  }

  lemma TmpActionKeepsInv(plans: PlanTable, s: State, who: nat)
    requires Inv(plans, s)
    requires who < |s.workers| && s.workers[who].At? && s.workers[who].next < |s.workers[who].plan|
    requires s.workers[who].phase.Check? || s.workers[who].phase.Opened?
    ensures Inv(plans, RunAction(s, who)) && RunAction(s, who).workers[who].At?
  {
    var w, s' := s.workers[who], RunAction(s, who);
    assert WorkerOk(plans, s.db, s.fs, w);
    TmpMovesOn(plans, s, who);
    hide RunAction, WorkerOk, Grows;
    DbUnchanged(plans, s.db, s.fs, s'.fs);
    HoldersApart(plans, s, who, s'.workers[who]);
    hide DbOk, OneHolderPerEpoch;
    PutKeepsInv(plans, s, s.db, s'.fs, Some(TmpOf(w)), who, s'.workers[who]);
  }

  lemma DbUnchanged(plans: PlanTable, db: Db, fs: Files, fs': Files)
    requires DbOk(plans, db, fs) && fs'.committed == fs.committed
    ensures DbOk(plans, db, fs')
  {
    DbKept(plans, db, fs, db, fs');
  }

  lemma PublishActionKeepsInv(plans: PlanTable, s: State, who: nat)
    requires PlansOk(plans) && Inv(plans, s)
    requires who < |s.workers| && s.workers[who].At? && s.workers[who].next < |s.workers[who].plan|
    requires s.workers[who].phase.Written?
    ensures Inv(plans, RunAction(s, who)) && RunAction(s, who).workers[who].At?
  {
    var w, s' := s.workers[who], RunAction(s, who);
    assert WorkerOk(plans, s.db, s.fs, w);
    PublishKeepsDbOk(plans, s.db, s.fs, TmpOf(w), w.key, w.next);
    HoldersApart(plans, s, who, s'.workers[who]);
    hide DbOk, OneHolderPerEpoch, Canon;
    PutKeepsInv(plans, s, s.db, s'.fs, Some(TmpOf(w)), who, s'.workers[who]);
  }

  /** The next worker state, and what the others see, when the row of the next action is recorded. */
  lemma RecordMovesOn(plans: PlanTable, db: Db, fs: Files, w: Worker)
    requires WorkerOk(plans, db, fs, w) && w.At? && w.next < |w.plan|
    ensures var db' := RecordOverlay(db, AidAt(w.key, w.plan, w.next), w.plan[w.next].args, w.epoch);
            && Grows(plans, db, fs, db', fs, None)
            && WorkerOk(plans, db', fs, At(w.key, w.epoch, w.pid, w.commitId, w.plan, w.next + 1, Check))
  {
    var db' := RecordOverlay(db, AidAt(w.key, w.plan, w.next), w.plan[w.next].args, w.epoch);
    forall i | 0 <= i < w.next + 1 ensures AidAt(w.key, w.plan, i) in db'.actions {
      assert i < w.next ==> AidAt(w.key, w.plan, i) in db.actions;
    }
  }

  lemma RecordActionKeepsInv(plans: PlanTable, s: State, who: nat)
    requires Inv(plans, s)
    requires who < |s.workers| && s.workers[who].At? && s.workers[who].next < |s.workers[who].plan|
    requires s.workers[who].phase.Published?
    ensures Inv(plans, RunAction(s, who)) && RunAction(s, who).workers[who].At?
  {
    var w, s' := s.workers[who], RunAction(s, who);
    assert WorkerOk(plans, s.db, s.fs, w);
    RecordKeepsDbOk(plans, s.db, s.fs, TmpOf(w).aid, w.plan[w.next].args, w.epoch);
    RecordMovesOn(plans, s.db, s.fs, w);
    HoldersApart(plans, s, who, s'.workers[who]);
    hide DbOk, OneHolderPerEpoch, RecordOverlay, WorkerOk, Grows, Canon;
    PutKeepsInv(plans, s, s'.db, s.fs, None, who, s'.workers[who]);
  }

  lemma RunActionKeepsInv(plans: PlanTable, s: State, who: nat)
    requires PlansOk(plans) && Inv(plans, s)
    requires who < |s.workers| && s.workers[who].At? && s.workers[who].next < |s.workers[who].plan|
    ensures Inv(plans, RunAction(s, who)) && RunAction(s, who).workers[who].At?
  {
    hide Inv, PlansOk, RunAction;
    match s.workers[who].phase
    case Check => TmpActionKeepsInv(plans, s, who);
    case Opened => TmpActionKeepsInv(plans, s, who);
    case Written => PublishActionKeepsInv(plans, s, who);
    case Published => RecordActionKeepsInv(plans, s, who);
  }

  lemma CommitKeepsInv(plans: PlanTable, s: State, who: nat)
    requires Inv(plans, s) && who < |s.workers| && s.workers[who].At? && s.workers[who].next == |s.workers[who].plan|
    ensures Inv(plans, RunNext(s, who))
  {
    var w := s.workers[who];
    assert WorkerOk(plans, s.db, s.fs, w);
    var db' := CommitTurnDb(s.db, w.key);
    DbKept(plans, s.db, s.fs, db', s.fs);
    PutKeepsInv(plans, s, db', s.fs, None, who, Finished(w.key, w.epoch, w.pid));
  }

  lemma BeginKeepsInv(plans: PlanTable, s: State, k: TurnKey)
    requires Inv(plans, s) && k in plans
    ensures Inv(plans, s.(db := BeginDb(s.db, k, plans[k])))
  {
    var db' := BeginDb(s.db, k, plans[k]);
    DbKept(plans, s.db, s.fs, db', s.fs);
    forall i | 0 <= i < |s.workers| ensures WorkerOk(plans, db', s.fs, s.workers[i]) {
      WorkerKept(plans, s.db, s.fs, db', s.fs, None, s.workers[i]);
    }
  }

  lemma AcquireKeepsInv(plans: PlanTable, s: State, who: nat, k: TurnKey, pid: int)
    requires Inv(plans, s) && who < |s.workers| && s.workers[who].Down?
    ensures Inv(plans, Step(plans, s, Acquire(who, k, pid)))
  {
    var db' := AcquireDb(s.db, k);
    DbKept(plans, s.db, s.fs, db', s.fs);
    forall i | 0 <= i < |s.workers| ensures !s.workers[i].Holds(k, OwnerOf(db', k)) {
      assert WorkerOk(plans, s.db, s.fs, s.workers[i]);
    }
    PutKeepsInv(plans, s, db', s.fs, None, who, Acquired(k, OwnerOf(db', k), pid));
  }

  lemma LoadKeepsInv(plans: PlanTable, s: State, who: nat)
    requires Inv(plans, s) && who < |s.workers| && s.workers[who].Acquired?
    ensures Inv(plans, RunNext(s, who))
  {
    var w' := RunNext(s, who).workers[who];
    assert WorkerOk(plans, s.db, s.fs, s.workers[who]);
    assert s.workers[who].key in s.db.turns ==> StoredPlanOk(plans, s.db, s.workers[who].key);
    HoldersApart(plans, s, who, w');
    hide DbOk, OneHolderPerEpoch;
    PutKeepsInv(plans, s, s.db, s.fs, None, who, w');
  }

  lemma RunKeepsInv(plans: PlanTable, s: State, who: nat)
    requires PlansOk(plans) && Inv(plans, s) && who < |s.workers|
    ensures Inv(plans, RunNext(s, who))
  {
    var w := s.workers[who];
    assert WorkerOk(plans, s.db, s.fs, w);
    hide Inv, PlansOk, RunAction;
    if w.Acquired? {
      LoadKeepsInv(plans, s, who);
    } else if w.At? && w.next < |w.plan| {
      RunActionKeepsInv(plans, s, who);
    } else if w.At? {
      CommitKeepsInv(plans, s, who);
    }
  }

  lemma TornMovesOn(plans: PlanTable, s: State, who: nat, n: nat)
    requires who < |s.workers| && WorkerOk(plans, s.db, s.fs, s.workers[who])
    requires s.workers[who].At? && s.workers[who].next < |s.workers[who].plan| && s.workers[who].phase.Opened?
    ensures var w, s' := s.workers[who], Step(plans, s, TornWrite(who, n));
            && s' == Put(s, s.db, s'.fs, who, w) && s'.fs.committed == s.fs.committed
            && Grows(plans, s.db, s.fs, s.db, s'.fs, Some(TmpOf(w)))
            && WorkerOk(plans, s.db, s'.fs, w)
  {
    hide Canon;
  }

  lemma TornKeepsInv(plans: PlanTable, s: State, who: nat, n: nat)
    requires Inv(plans, s)
    requires who < |s.workers| && s.workers[who].At? && s.workers[who].next < |s.workers[who].plan|
    requires s.workers[who].phase.Opened?
    ensures Inv(plans, Step(plans, s, TornWrite(who, n)))
  {
    var w, s' := s.workers[who], Step(plans, s, TornWrite(who, n));
    assert WorkerOk(plans, s.db, s.fs, w);
    TornMovesOn(plans, s, who, n);
    HoldersApart(plans, s, who, w);
    hide Step, WorkerOk, Grows, OneHolderPerEpoch;
    DbUnchanged(plans, s.db, s.fs, s'.fs);
    hide DbOk;
    PutKeepsInv(plans, s, s.db, s'.fs, Some(TmpOf(w)), who, w);
  }

  lemma ExitKeepsInv(plans: PlanTable, s: State, who: nat)
    requires Inv(plans, s) && who < |s.workers|
    ensures Inv(plans, Put(s, s.db, s.fs, who, Down))
  {
    hide DbOk, OneHolderPerEpoch;
    PutKeepsInv(plans, s, s.db, s.fs, None, who, Down);
  }

  lemma StepKeepsInv(plans: PlanTable, s: State, event: Event)
    requires PlansOk(plans) && Inv(plans, s)
    ensures Inv(plans, Step(plans, s, event))
  {
    hide Inv, PlansOk, RunNext;
    match event
    case Begin(k) =>
      if k in plans {
        BeginKeepsInv(plans, s, k);
      }
    case Acquire(who, k, pid) =>
      if who < |s.workers| && s.workers[who].Down? {
        AcquireKeepsInv(plans, s, who, k, pid);
      }
    case Run(who) =>
      if who < |s.workers| {
        RunKeepsInv(plans, s, who);
      }
    case TornWrite(who, n) =>
      if who < |s.workers| && s.workers[who].At? && s.workers[who].next < |s.workers[who].plan|
         && s.workers[who].phase.Opened?
      {
        TornKeepsInv(plans, s, who, n);
      }
    case Exit(who) =>
      if who < |s.workers| {
        ExitKeepsInv(plans, s, who);
      }
  }

  lemma {:induction false} ExecKeepsInv(plans: PlanTable, s: State, events: seq<Event>)
    requires PlansOk(plans) && Inv(plans, s)
    ensures Inv(plans, Exec(plans, s, events))
    decreases |events|
  {
    if events != [] {
      StepKeepsInv(plans, s, events[0]);
      ExecKeepsInv(plans, Step(plans, s, events[0]), events[1..]);
    }
  }
}
