/** The durable stream, the two clients and the workers as objects updated in place, for one turn and
    one client. */
module StreamObjects {
  import opened Identity
  import opened Stream

  /** Numbered log rows 1, 2, ... of a token list. */
  function LogRows(log: seq<Token>): seq<Row> {
    TokensFrom(log, 1)
  }

  lemma {:induction false} InsertAbsentLast(rows: seq<Row>, row: Row)
    requires forall i :: 0 <= i < |rows| ==> rows[i].n < row.n
    ensures Insert(rows, row) == rows + [row]
  {
    if rows != [] {
      InsertAbsentLast(rows[1..], row);
    }
  }

  lemma {:induction false} InsertPresent(rows: seq<Row>, row: Row, i: nat)
    requires Sorted(rows) && i < |rows| && rows[i].n == row.n
    ensures Insert(rows, row) == rows
  {
    if i > 0 {
      assert forall j :: 0 <= j < |rows| - 1 ==> rows[1..][j] == rows[j + 1];
      InsertPresent(rows[1..], row, i - 1);
    }
  }

  /** Receiving a number again changes nothing; receiving it first adds its row and no other. */
  lemma DeliverOnce(rows: seq<Row>, row: Row)
    requires Sorted(rows)
    ensures Has(rows, row.n) ==> Insert(rows, row) == rows
    ensures 1 <= row.n && !Has(rows, row.n) ==>
              && Sorted(Insert(rows, row)) && row in Insert(rows, row)
              && forall m :: Has(Insert(rows, row), m) <==> Has(rows, m) || m == row.n
  {
    if Has(rows, row.n) {
      var i :| 0 <= i < |rows| && rows[i].n == row.n;
      InsertPresent(rows, row, i);
    } else if 1 <= row.n {
      InsertSorted(rows, row);
      InsertMembers(rows, row);
      var r :| r in Insert(rows, row) && r.n == row.n;
      HasIs(rows, row.n);
    }
  }

  lemma CommitNone(log: seq<Token>, tokens: seq<Token>)
    ensures CommitLog(log, tokens[..0]) == log
  {
  }

  /** Inserting one more row is committing one more token. */
  lemma CommitOne(log: seq<Token>, tokens: seq<Token>, n: nat)
    requires n < |tokens|
    ensures Insert(LogRows(CommitLog(log, tokens[..n])), Row(n + 1, tokens[n])) ==
        LogRows(CommitLog(log, tokens[..n + 1]))
  {
    hide Insert;
    var done, row := CommitLog(log, tokens[..n]), Row(n + 1, tokens[n]);
    if n < |done| {
      assert LogRows(done)[n].n == row.n;
      InsertPresent(LogRows(done), row, n);
      assert CommitLog(log, tokens[..n + 1]) == done;
    } else {
      InsertAbsentLast(LogRows(done), row);
      assert CommitLog(log, tokens[..n + 1]) == done + [tokens[n]];
      assert LogRows(done + [tokens[n]]) == LogRows(done) + [row];
    }
  }

  class DurableStream {
    var outputLog: seq<Row>
    var ackSeq: int

    ghost predicate Holds(log: seq<Token>)
      reads this
    {
      outputLog == LogRows(log)
    }

    constructor ()
      ensures Holds([]) && ackSeq == 0
    {
      outputLog, ackSeq := [], 0;
    }

    /** Persist before send; rows already present are left alone. */
    method CommitOutput(tokens: seq<Token>, ghost log: seq<Token>)
      requires Holds(log)
      modifies this`outputLog
      ensures Holds(CommitLog(log, tokens))
    {
      hide Insert, CommitLog, LogRows;
      var n := 0;
      CommitNone(log, tokens);
      while n < |tokens|
        invariant 0 <= n <= |tokens|
        invariant Holds(CommitLog(log, tokens[..n]))
      {
        CommitOne(log, tokens, n);
        outputLog := Insert(outputLog, Row(n + 1, tokens[n]));
        n := n + 1;
      }
      assert tokens[..n] == tokens;
    }

    /** The rows numbered `n` and above, in order. */
    method RowsFrom(n: int, ghost log: seq<Token>) returns (rows: seq<Row>)
      requires Holds(log)
      ensures rows == TokensFrom(log, n)
    {
      rows := [];
      var i := 0;
      while i < |outputLog|
        invariant 0 <= i <= |outputLog|
        invariant rows == TokensFrom(log[..i], n)
      {
        var row := outputLog[i];
        if row.n >= n {
          rows := rows + [row];
        }
        assert log[..i + 1] == log[..i] + [log[i]];
        i := i + 1;
      }
      assert log[..i] == log;
    }

    method RecordAck(ack: int)
      modifies this`ackSeq
      ensures ackSeq == Max(old(ackSeq), ack)
    {
      ackSeq := if ackSeq > ack then ackSeq else ack;
    }
  }

  class DurableClient {
    var recv: seq<Row>

    constructor ()
      ensures recv == []
    {
      recv := [];
    }

    method AckSeq() returns (ack: int)
      ensures ack == Ack(recv)
    {
      ack := 0;
      var i := 0;
      assert recv[0..] == recv;
      while i < |recv|
        invariant 0 <= i <= |recv|
        invariant AckFrom(recv[i..], ack) == Ack(recv)
      {
        var row := recv[i];
        assert recv[i..][0] == row && recv[i..][1..] == recv[i + 1..];
        if row.n == ack + 1 {
          ack := row.n;
        } else if row.n > ack + 1 {
          break;
        }
        i := i + 1;
      }
    }

    method Tokens() returns (out: seq<Token>)
      ensures out == Materialized(recv)
    {
      out := [];
      var ack, i := 0, 0;
      assert recv[0..] == recv;
      while i < |recv|
        invariant 0 <= i <= |recv|
        invariant out + MaterializedFrom(recv[i..], ack) == Materialized(recv)
      {
        var row := recv[i];
        assert recv[i..][0] == row && recv[i..][1..] == recv[i + 1..];
        if row.n == ack + 1 {
          out := out + [row.token];
          ack := row.n;
        } else if row.n > ack + 1 {
          break;
        }
        i := i + 1;
      }
    }

    /** A number already received is left alone, with the token it has; a new one is kept in its place. */
    method Deliver(n: int, token: Token)
      modifies this
      ensures recv == Insert(old(recv), Row(n, token))
      ensures Sorted(old(recv)) && Has(old(recv), n) ==> recv == old(recv)
      ensures Sorted(old(recv)) && 1 <= n && !Has(old(recv), n) ==>
                Sorted(recv) && Row(n, token) in recv && forall m :: Has(recv, m) <==> Has(old(recv), m) || m == n
    {
      ghost var before := recv;
      recv := Insert(recv, Row(n, token));
      if Sorted(before) {
        hide Insert, Sorted;
        DeliverOnce(before, Row(n, token));
      }
    }

    method Restart()
      modifies this
      ensures recv == []
    {
      recv := [];
    }
  }

  /** What a lone worker does with the rows it sends: client table, server watermark, and whether it died. */
  function SendAll(recv: seq<Row>, serverAck: int, rows: seq<Row>, crashAt: Option<int>, dropAck: bool)
    : (seq<Row>, int, bool)
    decreases |rows|
  {
    if rows == [] then (recv, serverAck, false)
    else if crashAt == Some(rows[0].n) then (recv, serverAck, true)
    else
      var recv' := Insert(recv, rows[0]);
      SendAll(recv', if dropAck then serverAck else Max(serverAck, Ack(recv')), rows[1..], crashAt, dropAck)
  }

  /** The whole program of a lone worker. */
  function WorkerRun(recv: seq<Row>, serverAck: int, log: seq<Token>, crashAt: Option<int>, dropAck: bool)
    : (seq<Row>, int, bool)
  {
    SendAll(recv, serverAck, TokensFrom(log, Min(serverAck, Ack(recv)) + 1), crashAt, dropAck)
  }

  lemma {:induction false} SendAllIs(recv: seq<Row>, serverAck: int, log: seq<Token>, n: int, held: int,
                                     crashAt: Option<int>, dropAck: bool)
    requires Sorted(recv) && DrawnFrom(recv, log) && HasUpTo(recv, held)
    requires 1 <= n <= held + 1 <= |log| + 1 && 0 <= serverAck <= |log|
    ensures var (recv', serverAck', died) := SendAll(recv, serverAck, TokensFrom(log, n), crashAt, dropAck);
            && Sorted(recv') && DrawnFrom(recv', log) && HasUpTo(recv', if died then held else |log|)
            && (died ==> crashAt.Some?)
            && serverAck <= serverAck' <= |log| && (dropAck ==> serverAck' == serverAck)
            && (!died && !dropAck && n <= |log| ==> serverAck' == |log|)
    decreases |log| - n
  {
    hide Insert, Ack, Sorted, DrawnFrom, HasUpTo;
    if n <= |log| {
      var row, rows := Row(n, log[n - 1]), TokensFrom(log, n);
      assert rows[0] == row && rows[1..] == TokensFrom(log, n + 1);
      if crashAt != Some(n) {
        RowsAre(log, n);
        DeliverRow(recv, log, row, held);
        var recv' := Insert(recv, row);
        AckIs(recv', log);
        AckReaches(recv', log, Max(held, n));
        var serverAck' := if dropAck then serverAck else Max(serverAck, Ack(recv'));
        SendAllIs(recv', serverAck', log, n + 1, Max(held, n), crashAt, dropAck);
        HeldBelow(SendAll(recv, serverAck, rows, crashAt, dropAck).0, Max(held, n), held);
      }
    } else {
      assert TokensFrom(log, n) == [];
    }
  }

  lemma HeldBelow(recv: seq<Row>, n: int, m: int)
    requires m <= n
    ensures HasUpTo(recv, n) ==> HasUpTo(recv, m)
  {
  }

  /** What a lone worker promises: it never loses ground; unless killed, the client ends with the whole log, and, unless
      acknowledgements are lost, the server knows it. */
  lemma WorkerRunIs(recv: seq<Row>, serverAck: int, log: seq<Token>, crashAt: Option<int>, dropAck: bool)
    requires Sorted(recv) && DrawnFrom(recv, log) && 0 <= serverAck <= |log|
    ensures var (recv', serverAck', died) := WorkerRun(recv, serverAck, log, crashAt, dropAck);
            && Sorted(recv') && DrawnFrom(recv', log)
            && 0 <= Ack(recv) <= Ack(recv') <= |log| && Materialized(recv') == log[..Ack(recv')]
            && (!died ==> Ack(recv') == |log| && Materialized(recv') == log)
            && (died ==> crashAt.Some?)
            && serverAck <= serverAck' <= |log| && (dropAck ==> serverAck' == serverAck)
            && (!died && !dropAck && |log| > Min(serverAck, Ack(recv)) ==> serverAck' == |log|)
  {
    hide Insert, Ack, Sorted, DrawnFrom, HasUpTo, Materialized, SendAll;
    AckIs(recv, log);
    SendAllIs(recv, serverAck, log, Min(serverAck, Ack(recv)) + 1, Ack(recv), crashAt, dropAck);
    var (recv', _, died) := WorkerRun(recv, serverAck, log, crashAt, dropAck);
    AckIs(recv', log);
    AckReaches(recv', log, if died then Ack(recv) else |log|);
    assert log[..|log|] == log;
  }

  /** One worker process alone with its tables.  It resumes at a point that skips nothing, so unless it
      dies the client ends with the whole log; dying, it leaves a prefix. */
  method RunWorker(stream: DurableStream, client: DurableClient, crashAt: Option<int>, dropAck: bool,
      ghost log: seq<Token>)
    returns (died: bool, resent: nat)
    requires stream.Holds(log) && Sorted(client.recv) && DrawnFrom(client.recv, log)
    requires 0 <= stream.ackSeq <= |log|
    modifies client, stream`ackSeq
    ensures (client.recv, stream.ackSeq, died) ==
            WorkerRun(old(client.recv), old(stream.ackSeq), log, crashAt, dropAck)
    ensures Sorted(client.recv) && DrawnFrom(client.recv, log)
    ensures 0 <= old(Ack(client.recv)) <= Ack(client.recv) <= |log|
    ensures !died ==> Ack(client.recv) == |log| && Materialized(client.recv) == log
    ensures !died ==> resent == old(Ack(client.recv) - Min(stream.ackSeq, Ack(client.recv)))
    ensures died ==> crashAt.Some? && Materialized(client.recv) == log[..Ack(client.recv)]
    ensures died ==> var start := old(Min(stream.ackSeq, Ack(client.recv)));
                     && start < crashAt.value <= |log|
                     && resent == Min(crashAt.value - 1 - start, old(Ack(client.recv)) - start)
    ensures old(stream.ackSeq) <= stream.ackSeq <= |log| && (dropAck ==> stream.ackSeq == old(stream.ackSeq))
    ensures !died && !dropAck && |log| > old(Min(stream.ackSeq, Ack(client.recv))) ==> stream.ackSeq == |log|
  {
    hide Insert, HasUpTo, Sorted, Materialized, Ack, DrawnFrom, TokensFrom;
    AckIs(client.recv, log);
    WorkerRunIs(client.recv, stream.ackSeq, log, crashAt, dropAck);
    var c0 := client.AckSeq();
    ghost var start := Min(stream.ackSeq, c0);
    var rows := stream.RowsFrom((if stream.ackSeq < c0 then stream.ackSeq else c0) + 1, log);
    died, resent := false, 0;
    var i := 0;
    RowsAre(log, start + 1);
    assert rows[0..] == rows;
    while i < |rows|
      invariant 0 <= i <= |rows| == |log| - start
      invariant resent == Min(i, c0 - start)
      invariant SendAll(client.recv, stream.ackSeq, rows[i..], crashAt, dropAck)
             == WorkerRun(old(client.recv), old(stream.ackSeq), log, crashAt, dropAck)
    {
      var row := rows[i];
      assert rows[i..][0] == row && rows[i..][1..] == rows[i + 1..];
      if crashAt == Some(row.n) {
        died := true;
        return;
      }
      if row.n <= c0 {
        resent := resent + 1;
      }
      client.Deliver(row.n, row.token);
      if !dropAck {
        var ack := client.AckSeq();
        stream.RecordAck(ack);
      }
      i := i + 1;
    }
  }

  lemma {:induction false} ExecSplit(s: State, e1: seq<Event>, e2: seq<Event>)
    ensures Exec(s, e1 + e2) == Exec(Exec(s, e1), e2)
    decreases |e1|
  {
    if e1 == [] {
      assert e1 + e2 == e2;
    } else {
      assert (e1 + e2)[0] == e1[0] && (e1 + e2)[1..] == e1[1..] + e2;
      ExecSplit(Step(s, e1[0]), e1[1..], e2);
    }
  }

  /** Sending the first pending row, and, unless acknowledgements are lost, recording the watermark it gives. */
  lemma SendOne(s: State, who: nat) returns (events: seq<Event>)
    requires who < |s.workers| && s.workers[who].Sending? && s.workers[who].pending != []
    ensures forall e :: e in events ==> e == Run(who)
    ensures var w := s.workers[who];
            var recv' := Insert(s.recv, w.pending[0]);
            Exec(s, events) ==
              s.(recv := recv', serverAck := if w.dropAck then s.serverAck else Max(s.serverAck, Ack(recv')),
                 workers := s.workers[who := Sending(w.pending[1..], w.dropAck)])
  {
    hide Insert, Ack;
    var s1 := RunNext(s, who);
    if s.workers[who].dropAck {
      events := [Run(who)];
      assert Exec(s, events) == Exec(s1, []);
    } else {
      events := [Run(who), Run(who), Run(who)];
      var s2 := RunNext(s1, who);
      assert events[1..] == [Run(who), Run(who)] && events[1..][1..] == [Run(who)];
      assert Exec(s, events) == Exec(s1, events[1..]) == Exec(s2, [Run(who)]) == Exec(RunNext(s2, who), []);
    }
  }

  lemma {:induction false} SendAllIsSchedule(s: State, who: nat, crashAt: Option<int>) returns (events: seq<Event>)
    requires who < |s.workers| && s.workers[who].Sending?
    ensures forall e :: e in events ==> e == Run(who) || (crashAt.Some? && e == Die(who))
    ensures var w := s.workers[who];
            var (recv, serverAck, died) := SendAll(s.recv, s.serverAck, w.pending, crashAt, w.dropAck);
            Exec(s, events) ==
              s.(recv := recv, serverAck := serverAck, workers := s.workers[who := if died then Idle else Finished])
    decreases |s.workers[who].pending|
  {
    hide Insert, Ack;
    var w := s.workers[who];
    if w.pending == [] {
      events := [Run(who)];
      assert Exec(s, events) == Exec(RunNext(s, who), []);
    } else if crashAt == Some(w.pending[0].n) {
      events := [Die(who)];
      assert Exec(s, events) == Exec(Step(s, Die(who)), []);
    } else {
      var first := SendOne(s, who);
      var s1 := Exec(s, first);
      hide Exec;
      var rest := SendAllIsSchedule(s1, who, crashAt);
      ExecSplit(s, first, rest);
      events := first + rest;
    }
  }

  /** The worker's program, finished or killed, is a schedule of the streaming protocol; so every statement over
      interleavings covers it. */
  lemma WorkerIsSchedule(s: State, who: nat, crashAt: Option<int>, dropAck: bool) returns (events: seq<Event>)
    requires who < |s.workers| && s.workers[who].Idle?
    ensures forall e :: e in events ==>
              e == Start(who, dropAck) || e == Run(who) || (crashAt.Some? && e == Die(who))
    ensures var (recv, serverAck, died) := WorkerRun(s.recv, s.serverAck, s.log, crashAt, dropAck);
            Exec(s, events) ==
              s.(recv := recv, serverAck := serverAck, workers := s.workers[who := if died then Idle else Finished])
  {
    hide Insert, Ack, SendAll;
    var s1 := Step(s, Start(who, dropAck));
    var s2 := RunNext(s1, who);
    var s3 := RunNext(s2, who);
    var rest := SendAllIsSchedule(s3, who, crashAt);
    var start := [Start(who, dropAck), Run(who), Run(who)];
    assert start[1..] == [Run(who), Run(who)] && start[1..][1..] == [Run(who)];
    assert Exec(s, start) == Exec(s1, start[1..]) == Exec(s2, [Run(who)]) == Exec(s3, []);
    ExecSplit(s, start, rest);
    events := start + rest;
  }

  lemma RowsAre(log: seq<Token>, n: int)
    requires 1 <= n <= |log| + 1
    ensures var rows := TokensFrom(log, n);
            |rows| == |log| - n + 1
            && forall i :: 0 <= i < |rows| ==> rows[i].n == n + i && DrawnFrom([rows[i]], log)
  {
  }

  /** Delivering the log row after a held prefix extends the prefix; delivering one within it changes nothing held. */
  lemma DeliverRow(recv: seq<Row>, log: seq<Token>, row: Row, held: int)
    requires Sorted(recv) && DrawnFrom(recv, log) && DrawnFrom([row], log) && HasUpTo(recv, held) && row.n <= held + 1
    ensures var recv' := Insert(recv, row);
            Sorted(recv') && DrawnFrom(recv', log) && HasUpTo(recv', Max(held, row.n))
  {
    assert [row][0] == row;
    InsertSorted(recv, row);
    DeliverKeeps(recv, log, row);
  }

  // ---- the in-memory reference ----

  /** The in-memory client as a value: watermark, tokens received, re-sends dropped. */
  datatype Mem = Mem(ack: int, received: seq<Token>, dropped: nat)

  function DeliverMem(m: Mem, n: int, token: Token): Mem {
    if n == m.ack + 1 then Mem(n, m.received + [token], m.dropped)
    else if n <= m.ack then m.(dropped := m.dropped + 1)
    else m
  }

  class StreamClient {
    var ack: int
    var received: seq<Token>
    var dupDropped: nat

    function Contents(): Mem
      reads this
    {
      Mem(ack, received, dupDropped)
    }

    constructor ()
      ensures Contents() == Mem(0, [], 0)
    {
      ack, received, dupDropped := 0, [], 0;
    }

    method Deliver(n: int, token: Token)
      modifies this
      ensures Contents() == DeliverMem(old(Contents()), n, token)
    {
      if n == ack + 1 {
        received := received + [token];
        ack := n;
      } else if n <= ack {
        dupDropped := dupDropped + 1;
      }
    }
  }

  /** What the client has received is always the log's prefix up to its watermark. */
  ghost predicate MemOk(m: Mem, log: seq<Token>) {
    0 <= m.ack <= |log| && m.received == log[..m.ack]
  }

  datatype ServeEnd = Served | Crashed | IndexError

  /** The token sent under number `n`: a number below one counts from the end of the list. */
  function TokenAt(log: seq<Token>, n: int): Token
    requires 1 - |log| <= n <= |log|
  {
    if n >= 1 then log[n - 1] else log[|log| + n - 1]
  }

  /** The serving worker with its crash clock: it ticks before and after each delivery and dies at tick
      `killAt` if that is positive.  It fails on a resume point too far below one, and otherwise dies exactly
      when its tick is among those it has.  Uninterrupted, from at most one past the watermark, it delivers
      everything and the re-sends are exactly the numbers the client was already past. */
  method Serve(log: seq<Token>, client: StreamClient, resumeFrom: int, killAt: nat) returns (end: ServeEnd)
    requires MemOk(client.Contents(), log)
    modifies client
    ensures MemOk(client.Contents(), log) && client.ack >= old(client.ack)
    ensures end.IndexError? <==> resumeFrom < 1 - |log|
    ensures end.IndexError? ==> client.Contents() == old(client.Contents())
    ensures end.Crashed? <==> 1 - |log| <= resumeFrom <= |log| && 1 <= killAt <= 2 * (|log| - resumeFrom + 1)
    ensures end.Served? && resumeFrom <= old(client.ack) + 1 ==> client.ack == |log| && client.received == log
    ensures end.Served? && resumeFrom <= old(client.ack) + 1 ==>
              client.dupDropped == old(client.dupDropped) + old(client.ack) - resumeFrom + 1
    ensures resumeFrom > old(client.ack) + 1 ==> client.Contents() == old(client.Contents())
  {
    var ticks := 0;
    var n := resumeFrom;
    while n <= |log|
      invariant resumeFrom <= n && (resumeFrom <= |log| ==> n <= |log| + 1)
      invariant n > |log| + 1 ==> n == resumeFrom
      invariant n == resumeFrom || 1 - |log| <= resumeFrom
      invariant ticks == 2 * (n - resumeFrom)
      invariant MemOk(client.Contents(), log) && client.ack >= old(client.ack)
      invariant killAt == 0 || ticks < killAt
      invariant resumeFrom <= old(client.ack) + 1 ==>
                  client.ack == Max(old(client.ack), n - 1)
                  && client.dupDropped == old(client.dupDropped) + Min(n - resumeFrom, old(client.ack) - resumeFrom + 1)
      invariant resumeFrom > old(client.ack) + 1 || n == resumeFrom ==> client.Contents() == old(client.Contents())
    {
      if n < 1 - |log| {
        return IndexError;
      }
      var token := TokenAt(log, n);
      ticks := ticks + 1;
      if killAt != 0 && ticks == killAt {
        return Crashed;
      }
      client.Deliver(n, token);
      ticks := ticks + 1;
      if killAt != 0 && ticks == killAt {
        return Crashed;
      }
      n := n + 1;
    }
    end := Served;
  }

  // ---- the durable client refines the in-memory one ----

  predicate InLog(schedule: seq<int>, log: seq<Token>) {
    forall i :: 0 <= i < |schedule| ==> 1 <= schedule[i] <= |log|
  }

  function ServeMem(m: Mem, log: seq<Token>, schedule: seq<int>): Mem
    requires InLog(schedule, log)
    decreases |schedule|
  {
    if schedule == [] then m else ServeMem(DeliverMem(m, schedule[0], log[schedule[0] - 1]), log, schedule[1..])
  }

  function ServeDurable(recv: seq<Row>, log: seq<Token>, schedule: seq<int>): seq<Row>
    requires InLog(schedule, log)
    decreases |schedule|
  {
    if schedule == [] then recv
    else ServeDurable(Insert(recv, Row(schedule[0], log[schedule[0] - 1])), log, schedule[1..])
  }

  /** No delivery is more than one past the watermark reached so far. */
  predicate NoSkip(ack: int, schedule: seq<int>)
    decreases |schedule|
  {
    schedule == [] || (schedule[0] <= ack + 1 && NoSkip(Max(ack, schedule[0]), schedule[1..]))
  }

  ghost predicate NoneBeyond(recv: seq<Row>, n: int) {
    forall m :: Has(recv, m) ==> m <= n
  }

  lemma {:induction false} Refines(m: Mem, recv: seq<Row>, log: seq<Token>, schedule: seq<int>)
    requires InLog(schedule, log)
    requires MemOk(m, log) && Sorted(recv) && DrawnFrom(recv, log) && HasUpTo(recv, m.ack)
    ensures var m', recv' := ServeMem(m, log, schedule), ServeDurable(recv, log, schedule);
            && MemOk(m', log) && Sorted(recv') && DrawnFrom(recv', log) && HasUpTo(recv', m'.ack)
            && (NoSkip(m.ack, schedule) && NoneBeyond(recv, m.ack) ==> NoneBeyond(recv', m'.ack))
    decreases |schedule|
  {
    if schedule != [] {
      var row := Row(schedule[0], log[schedule[0] - 1]);
      var m1, recv1 := DeliverMem(m, row.n, row.token), Insert(recv, row);
      assert DrawnFrom([row], log);
      DeliverKeeps(recv, log, row);
      InsertSorted(recv, row);
      Refines(m1, recv1, log, schedule[1..]);
    }
  }

  /** REFINEMENT: on any schedule of deliveries from one log, the durable client is never behind the
      in-memory one, both hold prefixes of the log, and they agree when no delivery skips ahead. */
  lemma DurableRefinesMemory(log: seq<Token>, schedule: seq<int>)
    requires InLog(schedule, log)
    ensures var m, recv := ServeMem(Mem(0, [], 0), log, schedule), ServeDurable([], log, schedule);
            && 0 <= m.ack <= Ack(recv) <= |log|
            && m.received == log[..m.ack] && Materialized(recv) == log[..Ack(recv)]
            && (NoSkip(0, schedule) ==> Ack(recv) == m.ack && Materialized(recv) == m.received)
  {
    Refines(Mem(0, [], 0), [], log, schedule);
    var m, recv := ServeMem(Mem(0, [], 0), log, schedule), ServeDurable([], log, schedule);
    AckIs(recv, log);
    AckReaches(recv, log, m.ack);
    if NoSkip(0, schedule) && Ack(recv) > 0 {
      assert Has(recv, Ack(recv));
    }
  }
}
