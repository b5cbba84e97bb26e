/** The output plane of one turn: a durable token log, a client that keeps what it received, and any
    number of workers that stream from one to the other and may die at any point. */
module Stream {
  import opened Schedules

  type Token = string

  /** A table row; rows are kept in the order of their sequence number, which is their primary key. */
  datatype Row = Row(n: int, token: Token)

  ghost predicate Sorted(rows: seq<Row>) {
    && (forall i :: 0 <= i < |rows| ==> 1 <= rows[i].n)
    && forall i, j :: 0 <= i < j < |rows| ==> rows[i].n < rows[j].n
  }

  /** INSERT OR IGNORE by sequence number. */
  function Insert(rows: seq<Row>, row: Row): seq<Row> {
    if rows == [] then [row]
    else if row.n < rows[0].n then [row] + rows
    else if row.n == rows[0].n then rows
    else [rows[0]] + Insert(rows[1..], row)
  }

  /** The watermark loop over the rows, from a watermark already reached. */
  function AckFrom(rows: seq<Row>, ack: int): int {
    if rows == [] then ack
    else if rows[0].n == ack + 1 then AckFrom(rows[1..], rows[0].n)
    else if rows[0].n > ack + 1 then ack
    else AckFrom(rows[1..], ack)
  }

  function Ack(rows: seq<Row>): int {
    AckFrom(rows, 0)
  }

  function MaterializedFrom(rows: seq<Row>, ack: int): seq<Token> {
    if rows == [] then []
    else if rows[0].n == ack + 1 then [rows[0].token] + MaterializedFrom(rows[1..], rows[0].n)
    else if rows[0].n > ack + 1 then []
    else MaterializedFrom(rows[1..], ack)
  }

  function Materialized(rows: seq<Row>): seq<Token> {
    MaterializedFrom(rows, 0)
  }

  ghost predicate Has(rows: seq<Row>, n: int) {
    exists i :: 0 <= i < |rows| && rows[i].n == n
  }

  ghost predicate HasUpTo(rows: seq<Row>, n: int) {
    forall m :: 1 <= m <= n ==> Has(rows, m)
  }

  /** Every row is the log's row of that number. */
  ghost predicate DrawnFrom(rows: seq<Row>, log: seq<Token>) {
    forall i :: 0 <= i < |rows| ==> 1 <= rows[i].n <= |log| && rows[i].token == log[rows[i].n - 1]
  }

  lemma {:induction false} InsertMembers(rows: seq<Row>, row: Row)
    ensures forall r :: r in Insert(rows, row) ==> r in rows || r == row
    ensures forall r :: r in rows ==> r in Insert(rows, row)
    ensures exists r :: r in Insert(rows, row) && r.n == row.n
  {
    if rows == [] || row.n < rows[0].n {
      assert row in [row] + rows;
    } else if row.n == rows[0].n {
      assert rows[0] in rows;
    } else {
      var tail := Insert(rows[1..], row);
      InsertMembers(rows[1..], row);
      assert rows == [rows[0]] + rows[1..];
      var r :| r in tail && r.n == row.n;
      assert r in [rows[0]] + tail;
    }
  }

  lemma {:induction false} InsertOrdered(rows: seq<Row>, row: Row)
    requires Sorted(rows) && 1 <= row.n
    ensures Sorted(Insert(rows, row))
  {
    if rows != [] && row.n > rows[0].n {
      var tail := Insert(rows[1..], row);
      InsertOrdered(rows[1..], row);
      InsertMembers(rows[1..], row);
      forall i | 0 <= i < |tail| ensures rows[0].n < tail[i].n {
        assert tail[i] in rows[1..] || tail[i] == row;
      }
    }
  }

  lemma HasIs(rows: seq<Row>, n: int)
    ensures Has(rows, n) <==> exists r :: r in rows && r.n == n
  {
    if r :| r in rows && r.n == n {
      var i :| 0 <= i < |rows| && rows[i] == r;
    }
  }

  lemma InsertSorted(rows: seq<Row>, row: Row)
    requires Sorted(rows) && 1 <= row.n
    ensures Sorted(Insert(rows, row))
    ensures forall n :: Has(Insert(rows, row), n) <==> Has(rows, n) || n == row.n
    ensures forall r :: r in Insert(rows, row) ==> r in rows || r == row
  {
    InsertOrdered(rows, row);
    InsertMembers(rows, row);
    forall n ensures Has(Insert(rows, row), n) <==> Has(rows, n) || n == row.n {
      HasIs(rows, n);
      HasIs(Insert(rows, row), n);
    }
  }

  /** In a sorted table the rows below the watermark are the first ones: the loop stops at the first gap. */
  lemma {:induction false} AckFromIs(rows: seq<Row>, from: nat, ack: nat)
    requires from <= |rows| && Sorted(rows) && ack == from
    requires forall i :: 0 <= i < from ==> rows[i].n == i + 1
    ensures var a := AckFrom(rows[from..], ack);
            && from <= a <= |rows| && (forall i :: 0 <= i < a ==> rows[i].n == i + 1)
            && (a < |rows| ==> rows[a].n > a + 1)
            && var out := MaterializedFrom(rows[from..], ack);
               |out| == a - from && forall i :: 0 <= i < a - from ==> out[i] == rows[from + i].token
    decreases |rows| - from
  {
    hide Sorted;
    if from < |rows| {
      assert rows[from..][0] == rows[from] && rows[from..][1..] == rows[from + 1..];
      SortedAbove(rows, from);
      if rows[from].n == ack + 1 {
        AckFromIs(rows, from + 1, ack + 1);
      }
    }
  }

  lemma {:induction false} SortedAbove(rows: seq<Row>, i: nat)
    requires Sorted(rows) && i < |rows|
    ensures rows[i].n >= i + 1
  {
    if i > 0 {
      SortedAbove(rows, i - 1);
    }
  }

  /** The watermark is the highest number up to which nothing is missing, and what is materialized is
      the log's prefix of that length. */
  lemma AckIs(rows: seq<Row>, log: seq<Token>)
    requires Sorted(rows) && DrawnFrom(rows, log)
    ensures 0 <= Ack(rows) <= |log| && HasUpTo(rows, Ack(rows)) && !Has(rows, Ack(rows) + 1)
    ensures Materialized(rows) == log[..Ack(rows)]
  {
    AckFromIs(rows, 0, 0);
    assert rows[0..] == rows;
    var a := Ack(rows);
    if a > 0 {
      assert rows[a - 1].n == a;
    }
    forall m | 1 <= m <= a ensures Has(rows, m) {
      assert rows[m - 1].n == m;
    }
    forall i | 0 <= i < |rows| ensures rows[i].n != a + 1 {
      if i > a {
        assert rows[a].n < rows[i].n;
      }
    }
  }

  lemma AckReaches(rows: seq<Row>, log: seq<Token>, n: int)
    requires Sorted(rows) && DrawnFrom(rows, log) && HasUpTo(rows, n) && 0 <= n
    ensures n <= Ack(rows)
  {
    AckIs(rows, log);
  }

  // ---- the protocol ----

  datatype Worker =
    | Idle
    | Opening(c0: int, dropAck: bool)                              // has read the client's watermark
    | Resuming(first: int, dropAck: bool)                          // has read the server's, and knows where to resume
    | Sending(pending: seq<Row>, dropAck: bool)                    // about to deliver the next pending row
    | Delivered(pending: seq<Row>)                                 // about to read the watermark
    | Acking(pending: seq<Row>, ack: int)                          // about to record it
    | Finished

  datatype State = State(log: seq<Token>, recv: seq<Row>, serverAck: int, workers: seq<Worker>)

  datatype Event =
    | Commit(tokens: seq<Token>)
    | Start(who: nat, dropAck: bool)
    | Run(who: nat)
    | Die(who: nat)
    | RestartClient

  function Init(n: nat): State {
    State([], [], 0, seq(n, _ => Idle))
  }

  /** Rows already in the log are kept, later ones are appended. */
  function CommitLog(log: seq<Token>, tokens: seq<Token>): seq<Token> {
    if |tokens| <= |log| then log else log + tokens[|log|..]
  }

  /** The log rows numbered `n` and above. */
  function TokensFrom(log: seq<Token>, n: int): seq<Row> {
    var first := if n <= 1 then 0 else if n - 1 <= |log| then n - 1 else |log|;
    seq(|log| - first, i requires 0 <= i < |log| - first => Row(first + i + 1, log[first + i]))
  }

  function Min(a: int, b: int): int {
    if a < b then a else b
  }

  function Max(a: int, b: int): int {
    if a > b then a else b
  }

  function RunNext(s: State, who: nat): State
    requires who < |s.workers|
  {
    match s.workers[who]
    case Opening(c0, dropAck) =>
      s.(workers := s.workers[who := Resuming(Min(s.serverAck, c0) + 1, dropAck)])
    case Resuming(first, dropAck) =>
      s.(workers := s.workers[who := Sending(TokensFrom(s.log, first), dropAck)])
    case Sending(pending, dropAck) =>
      if pending == [] then s.(workers := s.workers[who := Finished])
      else s.(recv := Insert(s.recv, pending[0]),
              workers := s.workers[who := if dropAck then Sending(pending[1..], dropAck) else Delivered(pending[1..])])
    case Delivered(pending) =>
      s.(workers := s.workers[who := Acking(pending, Ack(s.recv))])
    case Acking(pending, ack) =>
      s.(serverAck := Max(s.serverAck, ack), workers := s.workers[who := Sending(pending, false)])
    case _ => s
  }

  function Step(s: State, event: Event): (s': State)
    ensures |s'.workers| == |s.workers|
  {
    match event
    case Commit(tokens) => s.(log := CommitLog(s.log, tokens))
    case Start(who, dropAck) =>
      if who < |s.workers| && s.workers[who].Idle? then s.(workers := s.workers[who := Opening(Ack(s.recv), dropAck)])
      else s
    case Run(who) => if who < |s.workers| then RunNext(s, who) else s
    case Die(who) => if who < |s.workers| then s.(workers := s.workers[who := Idle]) else s
    case RestartClient => s.(recv := [])
  }

  function Exec(s: State, events: seq<Event>): (s': State)
    ensures |s'.workers| == |s.workers|
    decreases |events|
  {
    if events == [] then s else Exec(Step(s, events[0]), events[1..])
  }

  /** THE ADVERSARY: in every state any worker may be gone, the client may lose all that it received while the server's
      watermark stays, and more output may be committed. */
  lemma AdversaryMay(s: State, who: nat, tokens: seq<Token>)
    ensures who < |s.workers| ==>
              Step(s, Die(who)) == State(s.log, s.recv, s.serverAck, s.workers[who := Idle])
    ensures Step(s, RestartClient) == State(s.log, [], s.serverAck, s.workers)
    ensures |tokens| > |s.log| ==>
              Step(s, Commit(tokens)) == State(s.log + tokens[|s.log|..], s.recv, s.serverAck, s.workers)
  {
  }

  // ---- the invariant ----

  /** Pending rows are a stretch of the log. */
  ghost predicate Stretch(pending: seq<Row>, log: seq<Token>) {
    && DrawnFrom(pending, log)
    && forall i :: 0 <= i < |pending| - 1 ==> pending[i + 1].n == pending[i].n + 1
  }

  ghost predicate WorkerOk(w: Worker, log: seq<Token>) {
    match w
    case Idle => true
    case Finished => true
    case Opening(c0, _) => 0 <= c0 <= |log|
    case Resuming(first, _) => 1 <= first <= |log| + 1
    case Sending(pending, _) => Stretch(pending, log)
    case Delivered(pending) => Stretch(pending, log)
    case Acking(pending, ack) => Stretch(pending, log) && 0 <= ack <= |log|
  }

  ghost predicate Inv(s: State) {
    && Sorted(s.recv) && DrawnFrom(s.recv, s.log)
    && 0 <= s.serverAck <= |s.log|
    && forall i :: 0 <= i < |s.workers| ==> WorkerOk(s.workers[i], s.log)
  }

  lemma DeliverKeeps(recv: seq<Row>, log: seq<Token>, row: Row)
    requires Sorted(recv) && DrawnFrom(recv, log) && DrawnFrom([row], log)
    ensures Sorted(Insert(recv, row)) && DrawnFrom(Insert(recv, row), log)
  {
    assert [row][0] == row;
    InsertSorted(recv, row);
    forall i | 0 <= i < |Insert(recv, row)|
      ensures var r := Insert(recv, row)[i]; 1 <= r.n <= |log| && r.token == log[r.n - 1]
    {
      var r := Insert(recv, row)[i];
      assert r in recv || r == row;
    }
  }

  lemma RunKeepsInv(s: State, who: nat)
    requires Inv(s) && who < |s.workers|
    ensures var s' := RunNext(s, who);
            && Sorted(s'.recv) && DrawnFrom(s'.recv, s.log)
            && s.serverAck <= s'.serverAck <= |s.log|
            && WorkerOk(s'.workers[who], s.log)
  {
    hide Insert, Ack;
    var w := s.workers[who];
    AckIs(s.recv, s.log);
    assert WorkerOk(w, s.log);
    if w.Sending? && w.pending != [] {
      assert DrawnFrom([w.pending[0]], s.log);
      DeliverKeeps(s.recv, s.log, w.pending[0]);
      assert forall i :: 0 <= i < |w.pending[1..]| ==> w.pending[1..][i] == w.pending[i + 1];
    }
  }

  lemma WorkerKept(w: Worker, log: seq<Token>, tokens: seq<Token>)
    requires WorkerOk(w, log)
    ensures WorkerOk(w, CommitLog(log, tokens))
  {
  }

  lemma StepKeepsInv(s: State, event: Event)
    requires Inv(s)
    ensures Inv(Step(s, event)) && s.log <= Step(s, event).log && s.serverAck <= Step(s, event).serverAck
  {
    hide Insert, Ack;
    var s' := Step(s, event);
    AckIs(s.recv, s.log);
    match event
    case Commit(tokens) =>
      forall i | 0 <= i < |s.workers| ensures WorkerOk(s.workers[i], s'.log) {
        WorkerKept(s.workers[i], s.log, tokens);
      }
    case Run(who) =>
      if who < |s.workers| {
        RunKeepsInv(s, who);
      }
    case _ =>
  }

  lemma {:induction false} ExecKeepsInv(s: State, events: seq<Event>)
    requires Inv(s)
    ensures Inv(Exec(s, events)) && s.log <= Exec(s, events).log && s.serverAck <= Exec(s, events).serverAck
    decreases |events|
  {
    if events != [] {
      StepKeepsInv(s, events[0]);
      ExecKeepsInv(Step(s, events[0]), events[1..]);
    }
  }

  /** IN ORDER, EACH ONCE: after any interleaving of commits, workers, deaths, lost acknowledgements and
      client restarts, the client holds only log rows, one per number, and has materialized exactly the
      log's prefix up to its watermark. */
  lemma ClientHoldsPrefix(n: nat, events: seq<Event>)
    ensures var s := Exec(Init(n), events);
            && Sorted(s.recv) && DrawnFrom(s.recv, s.log)
            && 0 <= Ack(s.recv) <= |s.log| && Materialized(s.recv) == s.log[..Ack(s.recv)]
  {
    ExecKeepsInv(Init(n), events);
    AckIs(Exec(Init(n), events).recv, Exec(Init(n), events).log);
  }

  /** The server's watermark never regresses, and committed tokens are never changed. */
  lemma WatermarkIsMonotone(n: nat, events: seq<Event>, more: seq<Event>)
    ensures var s := Exec(Init(n), events);
            s.serverAck <= Exec(s, more).serverAck && s.log <= Exec(s, more).log
  {
    ExecKeepsInv(Init(n), events);
    ExecKeepsInv(Exec(Init(n), events), more);
  }

  // ---- completeness of an undisturbed worker ----

  function Pending(w: Worker): seq<Row> {
    match w
    case Sending(pending, _) => pending
    case Delivered(pending) => pending
    case Acking(pending, _) => pending
    case _ => []
  }

  /** The worker has left no gap: the client holds every row before its pending ones, and the pending
      ones reach the end of what was committed when it started. */
  ghost predicate NoGap(s: State, who: nat, size: nat) {
    && who < |s.workers|
    && match s.workers[who]
       case Idle => false
       case Opening(c0, _) => HasUpTo(s.recv, c0) && size <= |s.log|
       case Resuming(first, _) => HasUpTo(s.recv, first - 1) && size <= |s.log|
       case Finished => HasUpTo(s.recv, size)
       case _ =>
         var pending := Pending(s.workers[who]);
         if pending == [] then HasUpTo(s.recv, size)
         else HasUpTo(s.recv, pending[0].n - 1) && pending[|pending| - 1].n >= size
  }

  lemma NoGapKept(s: State, event: Event, who: nat, size: nat)
    requires Inv(s) && NoGap(s, who, size) && event != Die(who) && !event.RestartClient?
    ensures NoGap(Step(s, event), who, size)
  {
    var s' := Step(s, event);
    if event.Run? && event.who < |s.workers| {
      RunKeepsHas(s, event.who);
      if event.who == who {
        RunKeepsNoGap(s, who, size);
      } else {
        assert s'.workers[who] == s.workers[who];
        forall n | HasUpTo(s.recv, n) ensures HasUpTo(s'.recv, n) {
        }
      }
    }
  }

  lemma RunKeepsHas(s: State, who: nat)
    requires Inv(s) && who < |s.workers|
    ensures forall n :: Has(s.recv, n) ==> Has(RunNext(s, who).recv, n)
  {
    var w := s.workers[who];
    assert WorkerOk(w, s.log);
    if w.Sending? && w.pending != [] {
      InsertSorted(s.recv, w.pending[0]);
    }
  }

  lemma RunKeepsNoGap(s: State, who: nat, size: nat)
    requires Inv(s) && NoGap(s, who, size)
    ensures NoGap(RunNext(s, who), who, size)
  {
    var w, s' := s.workers[who], RunNext(s, who);
    assert WorkerOk(w, s.log);
    if w.Resuming? {
      var pending := Pending(s'.workers[who]);
      assert pending != [] ==> pending[0].n == w.first && pending[|pending| - 1].n == |s.log|;
    } else if w.Sending? && w.pending != [] {
      InsertSorted(s.recv, w.pending[0]);
      var n := w.pending[0].n;
      forall m | 1 <= m <= n ensures Has(s'.recv, m) {
        assert m < n ==> Has(s.recv, m);
      }
      if |w.pending| > 1 {
        assert w.pending[1].n == n + 1;
        assert w.pending[1..][|w.pending| - 2] == w.pending[|w.pending| - 1];
      } else {
        assert HasUpTo(s'.recv, size);
      }
    }
  }

  lemma {:induction false} NoGapRuns(s: State, events: seq<Event>, who: nat, size: nat)
    requires Inv(s) && NoGap(s, who, size) && Die(who) !in events && RestartClient !in events
    ensures Inv(Exec(s, events)) && NoGap(Exec(s, events), who, size)
    decreases |events|
  {
    if events != [] {
      StepKeepsInv(s, events[0]);
      NoGapKept(s, events[0], who, size);
      NoGapRuns(Step(s, events[0]), events[1..], who, size);
    }
  }

  /** COMPLETE: a worker that starts after a commit and runs to its end, with no client restart during
      it, leaves everything committed before it started materialized, whatever the others do. */
  lemma FinishedWorkerDeliversAll(n: nat, before: seq<Event>, who: nat, dropAck: bool, during: seq<Event>)
    requires who < n && Exec(Init(n), before).workers[who].Idle?
    requires Die(who) !in during && RestartClient !in during
    requires Exec(Step(Exec(Init(n), before), Start(who, dropAck)), during).workers[who].Finished?
    ensures var s0 := Exec(Init(n), before);
            var s := Exec(Step(s0, Start(who, dropAck)), during);
            |s0.log| <= Ack(s.recv) && s0.log <= Materialized(s.recv)
  {
    var s0 := Exec(Init(n), before);
    ExecKeepsInv(Init(n), before);
    AckIs(s0.recv, s0.log);
    var s1 := Step(s0, Start(who, dropAck));
    StepKeepsInv(s0, Start(who, dropAck));
    ExecKeepsInv(s1, during);
    NoGapRuns(s1, during, who, |s0.log|);
    var s := Exec(s1, during);
    AckReaches(s.recv, s.log, |s0.log|);
    AckIs(s.recv, s.log);
  }

  // ---- every worker that keeps running ends ----

  /** A bound on the actions a worker still has to perform, if the log does not outgrow `size`. */
  function Left(w: Worker, size: nat): nat {
    match w
    case Opening(_, _) => 3 * size + 3
    case Resuming(_, _) => 3 * size + 2
    case Sending(pending, _) => 3 * |pending| + 1
    case Delivered(pending) => 3 * |pending| + 3
    case Acking(pending, _) => 3 * |pending| + 2
    case _ => 0
  }

  lemma LeftShrinks(s: State, event: Event, who: nat, size: nat)
    requires who < |s.workers| && !s.workers[who].Idle? && |s.log| <= size && event != Die(who)
    ensures var w, w' := s.workers[who], Step(s, event).workers[who];
            && !w'.Idle? && Left(w', size) <= Left(w, size)
            && (event == Run(who) && Left(w, size) > 0 ==> Left(w', size) < Left(w, size))
  {
    hide Insert, Ack;
  }

  lemma StepExtendsLog(s: State, event: Event)
    ensures s.log <= Step(s, event).log
  {
    hide Insert, Ack;
  }

  lemma {:induction false} LogGrows(s: State, events: seq<Event>)
    ensures s.log <= Exec(s, events).log
    decreases |events|
  {
    if events != [] {
      StepExtendsLog(s, events[0]);
      LogGrows(Step(s, events[0]), events[1..]);
    }
  }

  lemma {:induction false} LeftRuns(s: State, events: seq<Event>, who: nat, size: nat)
    requires who < |s.workers| && !s.workers[who].Idle? && Die(who) !in events
    requires |Exec(s, events).log| <= size
    ensures var w' := Exec(s, events).workers[who];
            && !w'.Idle?
            && (Left(w', size) == 0 || Left(w', size) + Count(events, Run(who)) <= Left(s.workers[who], size))
    decreases |events|
  {
    if events != [] {
      LogGrows(s, events);
      LeftShrinks(s, events[0], who, size);
      hide Step, Left;
      LeftRuns(Step(s, events[0]), events[1..], who, size);
    }
  }

  /** LIVE: a worker that is not killed ends after at most three actions per token and three more, and then,
      with no client restart during it, everything committed before it started is materialized. */
  lemma StartedWorkerDeliversAll(n: nat, before: seq<Event>, who: nat, dropAck: bool, during: seq<Event>)
    requires who < n && Exec(Init(n), before).workers[who].Idle? && Die(who) !in during
    ensures var s0 := Exec(Init(n), before);
            var s := Exec(Step(s0, Start(who, dropAck)), during);
            Count(during, Run(who)) >= 3 * |s.log| + 3 ==>
              && s.workers[who].Finished?
              && (RestartClient !in during ==> s0.log <= Materialized(s.recv))
  {
    var s0 := Exec(Init(n), before);
    var s1 := Step(s0, Start(who, dropAck));
    var s := Exec(s1, during);
    LeftRuns(s1, during, who, |s.log|);
    if s.workers[who].Finished? && RestartClient !in during {
      FinishedWorkerDeliversAll(n, before, who, dropAck, during);
    }
  }
}
