/** What commits, reads of the log and a lone worker leave, exactly. */
module StreamExact {
  import opened Identity
  import opened Stream
  import opened StreamObjects

  /** Committing keeps the log and appends what the tokens have beyond it. */
  lemma CommitLogIs(log: seq<Token>, tokens: seq<Token>)
    ensures var log' := CommitLog(log, tokens);
            && |log'| == Max(|log|, |tokens|) && log'[..|log|] == log
            && forall i :: |log| <= i < |log'| ==> log'[i] == tokens[i]
  {
  }

  /** The rows from a number on are the log's rows of those numbers, in order. */
  lemma TokensFromIs(log: seq<Token>, n: int)
    ensures var rows := TokensFrom(log, n);
            && Sorted(rows) && DrawnFrom(rows, log)
            && forall m :: Has(rows, m) <==> 1 <= m <= |log| && n <= m
  {
    var rows := TokensFrom(log, n);
    forall m | 1 <= m <= |log| && n <= m ensures Has(rows, m) {
      assert rows[m - (if n <= 1 then 1 else n)].n == m;
    }
  }

  /** The last number delivered by a worker that sends from `n` on. */
  function LastSent(log: seq<Token>, n: int, crashAt: Option<int>): int {
    if crashAt.Some? && n <= crashAt.value <= |log| then crashAt.value - 1 else |log|
  }

  lemma {:induction false} SendAllExactly(recv: seq<Row>, serverAck: int, log: seq<Token>, n: int, crashAt: Option<int>,
                                          dropAck: bool)
    requires Sorted(recv) && DrawnFrom(recv, log) && 1 <= n <= |log| + 1
    ensures var (recv', serverAck', died) := SendAll(recv, serverAck, TokensFrom(log, n), crashAt, dropAck);
            var last := LastSent(log, n, crashAt);
            && (died <==> crashAt.Some? && n <= crashAt.value <= |log|)
            && Sorted(recv') && DrawnFrom(recv', log)
            && (forall m :: Has(recv', m) <==> Has(recv, m) || n <= m <= last)
            && (last < n ==> recv' == recv)
            && serverAck' == if dropAck || last < n then serverAck else Max(serverAck, Ack(recv'))
    decreases |log| - n
  {
    hide Insert, Ack, Sorted, DrawnFrom, HasUpTo, Has;
    if n <= |log| {
      var row, rows := Row(n, log[n - 1]), TokensFrom(log, n);
      assert rows[0] == row && rows[1..] == TokensFrom(log, n + 1);
      if crashAt != Some(n) {
        DeliverOne(recv, log, n);
        var recv1 := Insert(recv, row);
        var serverAck1 := if dropAck then serverAck else Max(serverAck, Ack(recv1));
        SendAllExactly(recv1, serverAck1, log, n + 1, crashAt, dropAck);
        AckGrows(recv1, SendAll(recv, serverAck, rows, crashAt, dropAck).0, log);
      }
    } else {
      assert TokensFrom(log, n) == [];
    }
  }

  lemma DeliverOne(recv: seq<Row>, log: seq<Token>, n: int)
    requires Sorted(recv) && DrawnFrom(recv, log) && 1 <= n <= |log|
    ensures var recv1 := Insert(recv, Row(n, log[n - 1]));
            Sorted(recv1) && DrawnFrom(recv1, log) && forall m :: Has(recv1, m) <==> Has(recv, m) || m == n
  {
    InsertSorted(recv, Row(n, log[n - 1]));
    var recv1 := Insert(recv, Row(n, log[n - 1]));
    forall i | 0 <= i < |recv1| ensures 1 <= recv1[i].n <= |log| && recv1[i].token == log[recv1[i].n - 1] {
      assert recv1[i] in recv1;
    }
  }

  lemma AckGrows(recv: seq<Row>, recv': seq<Row>, log: seq<Token>)
    requires Sorted(recv) && DrawnFrom(recv, log) && Sorted(recv') && DrawnFrom(recv', log)
    requires forall m :: Has(recv, m) ==> Has(recv', m)
    ensures Ack(recv) <= Ack(recv')
  {
    AckIs(recv, log);
    AckReaches(recv', log, Ack(recv));
  }

  /** ONE WORKER, EXACTLY: it resumes one past the smaller of the two watermarks; it dies if and only if the number it
      is to die at is among those it sends, before delivering it; the client gets exactly the numbers before that, or
      all of the log; and the server records the watermark after them, unless acknowledgements are lost or none was
      sent. */
  lemma WorkerRunExactly(recv: seq<Row>, serverAck: int, log: seq<Token>, crashAt: Option<int>, dropAck: bool)
    requires Sorted(recv) && DrawnFrom(recv, log) && 0 <= serverAck <= |log|
    ensures var (recv', serverAck', died) := WorkerRun(recv, serverAck, log, crashAt, dropAck);
            var resume := (if serverAck < Ack(recv) then serverAck else Ack(recv)) + 1;
            var last := LastSent(log, resume, crashAt);
            && (died <==> crashAt.Some? && resume <= crashAt.value <= |log|)
            && DrawnFrom(recv', log) && (forall m :: Has(recv', m) <==> Has(recv, m) || resume <= m <= last)
            && serverAck' == if dropAck || last < resume then serverAck else Max(serverAck, Ack(recv'))
  {
    hide Ack, Has, HasUpTo, Sorted, DrawnFrom, Materialized, SendAll, TokensFrom;
    AckIs(recv, log);
    SendAllExactly(recv, serverAck, log, Min(serverAck, Ack(recv)) + 1, crashAt, dropAck);
  }

  // ---- what a worker has read stays read ----

  predicate OfOthers(event: Event, who: nat) {
    !(event.Start? && event.who == who) && !(event.Run? && event.who == who) && !(event.Die? && event.who == who)
  }

  lemma OtherKeeps(s: State, event: Event, who: nat)
    requires who < |s.workers| && OfOthers(event, who)
    ensures Step(s, event).workers[who] == s.workers[who]
  {
    hide Insert, Ack, TokensFrom;
  }

  lemma {:induction false} OthersKeep(s: State, events: seq<Event>, who: nat)
    requires who < |s.workers| && forall e :: e in events ==> OfOthers(e, who)
    ensures Exec(s, events).workers[who] == s.workers[who]
    decreases |events|
  {
    hide Step, OfOthers;
    if events != [] {
      assert events[0] in events;
      assert forall e :: e in events[1..] ==> e in events;
      OtherKeeps(s, events[0], who);
      OthersKeep(Step(s, events[0]), events[1..], who);
    }
  }

  /** A LATE ACKNOWLEDGEMENT: the server records the watermark that the worker read, whatever the client has received or
      lost since. */
  lemma RecordsWhatItRead(s: State, who: nat, during: seq<Event>)
    requires who < |s.workers| && s.workers[who].Delivered? && forall e :: e in during ==> OfOthers(e, who)
    ensures var s' := Exec(RunNext(s, who), during);
            && s'.workers[who].Acking?
            && RunNext(s', who).serverAck ==
                 if s'.serverAck > Ack(s.recv) then s'.serverAck else Ack(s.recv)
  {
    hide Ack, TokensFrom, Insert, Exec, OfOthers;
    OthersKeep(RunNext(s, who), during, who);
  }

  /** A LATE RESUMPTION: a worker resumes after the smaller of the client's watermark when it started and the server's
      when it looked, and sends what the log then holds from there on. */
  lemma ResumesWhereItRead(s: State, who: nat, dropAck: bool, first: seq<Event>, second: seq<Event>)
    requires who < |s.workers| && s.workers[who].Idle?
    requires (forall e :: e in first ==> OfOthers(e, who)) && forall e :: e in second ==> OfOthers(e, who)
    ensures var s1 := Exec(Step(s, Start(who, dropAck)), first);
            var s2 := Exec(RunNext(s1, who), second);
            var resume := (if s1.serverAck < Ack(s.recv) then s1.serverAck else Ack(s.recv)) + 1;
            RunNext(s2, who).workers[who] == Sending(TokensFrom(s2.log, resume), dropAck)
  {
    hide Ack, TokensFrom, Insert, Exec, OfOthers;
    var s0 := Step(s, Start(who, dropAck));
    OthersKeep(s0, first, who);
    OthersKeep(RunNext(Exec(s0, first), who), second, who);
  }
}
