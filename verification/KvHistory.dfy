/** Histories of the KV view: snapshots taken one file operation at a time by a process that may die or fail,
    while anyone edits or deletes block files and temp files between any two operations. */
module KvHistory {
  import opened Identity
  import opened KvView
  import opened Schedules

  /** The snapshot being taken: the digests of the blocks stored so far, and whether the temp file of the
      next one is written. */
  datatype Writer =
    | Idle
    | Snapping(lsn: Lsn, prov: Provenance, blocks: seq<Bytes>, hashes: seq<Digest>, wrote: bool)

  datatype State = State(kv: Kv, writer: Writer)

  datatype Event =
    | Start(lsn: Lsn, prov: Provenance, blocks: seq<Bytes>)
    | Go                                      // the next operation of the snapshot
    | Die
    | EditFile(h: Digest, content: Bytes)
    | DeleteFile(h: Digest)
    | EditTmp(h: Digest, content: Bytes)      // also a temp write cut short
    | DeleteTmp(h: Digest)

  const INITIAL := State(EMPTY, Idle)

  function Next(w: Writer): Digest
    requires w.Snapping? && |w.hashes| < |w.blocks|
  {
    Sha256(w.blocks[|w.hashes|])
  }

  /** Look for the file, write the temp file, rename it, or, when all blocks are stored, write the manifest.
      Renaming a temp file that is gone raises. */
  function Advance(s: State): State
    requires s.writer.Snapping?
  {
    var kv, w := s.kv, s.writer;
    if |w.hashes| >= |w.blocks| then
      State(kv.(manifests := kv.manifests[w.lsn := Manifest(ProvKeyOf(w.prov), w.hashes, TotalBytes(w.blocks))]), Idle)
    else
      var h := Next(w);
      if !w.wrote then
        if h in kv.files then State(kv, w.(hashes := w.hashes + [h]))
        else State(kv.(tmps := kv.tmps[h := w.blocks[|w.hashes|]]), w.(wrote := true))
      else if h in kv.tmps then
        State(kv.(files := kv.files[h := kv.tmps[h]], tmps := kv.tmps - {h}),
            w.(hashes := w.hashes + [h], wrote := false))
      else State(kv, Idle)
  }

  function Step(s: State, event: Event): State {
    match event
    case Start(lsn, prov, blocks) => if s.writer.Idle? then s.(writer := Snapping(lsn, prov, blocks, [], false)) else s
    case Go => if s.writer.Snapping? then Advance(s) else s
    case Die => s.(writer := Idle)
    case EditFile(h, content) => s.(kv := s.kv.(files := s.kv.files[h := content]))
    case DeleteFile(h) => s.(kv := s.kv.(files := s.kv.files - {h}))
    case EditTmp(h, content) => s.(kv := s.kv.(tmps := s.kv.tmps[h := content]))
    case DeleteTmp(h) => s.(kv := s.kv.(tmps := s.kv.tmps - {h}))
  }

  function Exec(s: State, events: seq<Event>): State
    decreases |events|
  {
    if events == [] then s else Exec(Step(s, events[0]), events[1..])
  }

  /** THE ADVERSARY: in every state the snapshot under way may be gone, and any block file and any temp file may be
      given any content or be removed. */
  lemma AdversaryMay(s: State, h: Digest, content: Bytes)
    ensures Step(s, Die) == State(s.kv, Idle)
    ensures Step(s, EditFile(h, content)) == State(Kv(s.kv.files[h := content], s.kv.tmps, s.kv.manifests), s.writer)
    ensures Step(s, DeleteFile(h)) == State(Kv(s.kv.files - {h}, s.kv.tmps, s.kv.manifests), s.writer)
    ensures Step(s, EditTmp(h, content)) == State(Kv(s.kv.files, s.kv.tmps[h := content], s.kv.manifests), s.writer)
    ensures Step(s, DeleteTmp(h)) == State(Kv(s.kv.files, s.kv.tmps - {h}, s.kv.manifests), s.writer)
  {
  }

  // ---- the last completed snapshot ----

  type Taken = Option<(Provenance, seq<Bytes>)>

  /** A snapshot is completed by the operation that writes its manifest. */
  predicate Completes(s: State, event: Event, lsn: Lsn) {
    event.Go? && s.writer.Snapping? && s.writer.lsn == lsn && |s.writer.hashes| >= |s.writer.blocks|
  }

  /** The last snapshot of a turn that was completed, starting from a known one. */
  function LastSnapshot(s: State, events: seq<Event>, lsn: Lsn, last: Taken): Taken
    decreases |events|
  {
    if events == [] then last
    else
      LastSnapshot(Step(s, events[0]), events[1..], lsn,
                   if Completes(s, events[0], lsn) then Some((s.writer.prov, s.writer.blocks)) else last)
  }

  /** The manifest in force is that of the last completed snapshot. */
  ghost predicate InForce(kv: Kv, lsn: Lsn, last: Taken) {
    match last
    case None => lsn !in kv.manifests
    case Some((prov, blocks)) =>
      lsn in kv.manifests && kv.manifests[lsn] == Manifest(ProvKeyOf(prov), Hashes(blocks), TotalBytes(blocks))
  }

  ghost predicate WriterOk(w: Writer) {
    w.Snapping? ==>
      && |w.hashes| <= |w.blocks| && w.hashes == Hashes(w.blocks)[..|w.hashes|]
      && (w.wrote ==> |w.hashes| < |w.blocks|)
  }

  lemma StepKeepsWriterOk(s: State, event: Event)
    requires WriterOk(s.writer)
    ensures WriterOk(Step(s, event).writer)
  {
  }

  lemma StepKeepsInForce(s: State, event: Event, lsn: Lsn, last: Taken)
    requires WriterOk(s.writer) && InForce(s.kv, lsn, last)
    ensures InForce(Step(s, event).kv, lsn,
                    if Completes(s, event, lsn) then Some((s.writer.prov, s.writer.blocks)) else last)
  {
    if Completes(s, event, lsn) {
      assert Hashes(s.writer.blocks)[..|s.writer.hashes|] == Hashes(s.writer.blocks);
    }
  }

  lemma {:induction false} ExecKeepsInForce(s: State, events: seq<Event>, lsn: Lsn, last: Taken)
    requires WriterOk(s.writer) && InForce(s.kv, lsn, last)
    ensures WriterOk(Exec(s, events).writer) && InForce(Exec(s, events).kv, lsn, LastSnapshot(s, events, lsn, last))
    decreases |events|
  {
    if events != [] {
      StepKeepsWriterOk(s, events[0]);
      StepKeepsInForce(s, events[0], lsn, last);
      ExecKeepsInForce(Step(s, events[0]), events[1..], lsn,
                       if Completes(s, events[0], lsn) then Some((s.writer.prov, s.writer.blocks)) else last);
    }
  }

  /** The manifest read for a turn, after any history, is that of its last completed snapshot. */
  lemma ManifestInForce(events: seq<Event>, lsn: Lsn)
    ensures InForce(Exec(INITIAL, events).kv, lsn, LastSnapshot(INITIAL, events, lsn, None))
  {
    ExecKeepsInForce(INITIAL, events, lsn, None);
  }

  ghost predicate AllIntact(files: map<Digest, Bytes>, blocks: seq<Bytes>) {
    forall b :: b in blocks ==> Intact(files, b)
  }

  /** SOUND AND EXACT: after any history of snapshots, cut, failed or complete, with edits and deletions of
      block files and temp files between any two of their operations, restore answers from the last completed
      snapshot of that turn: it restores, byte for byte, exactly when the provenance is equal and every block
      file is intact, and otherwise says why not. */
  lemma RestoreIsExact(events: seq<Event>, lsn: Lsn, current: Provenance)
    ensures var kv := Exec(INITIAL, events).kv;
            Restore(kv, lsn, current) ==
              match LastSnapshot(INITIAL, events, lsn, None)
              case None => ManifestMissing
              case Some((prov, blocks)) =>
                if prov != current then ProvenanceMismatch
                else if AllIntact(kv.files, blocks) then RestoredBlocks(blocks)
                else BlockCorruptOrMissing
  {
    var kv := Exec(INITIAL, events).kv;
    ManifestInForce(events, lsn);
    match LastSnapshot(INITIAL, events, lsn, None)
    case None =>
    case Some((prov, blocks)) =>
      ReadBlocksIs(kv.files, blocks, []);
      assert [] + blocks == blocks;
  }

  // ---- a snapshot among harmless events ----

  /** Operations of this snapshot, and tampering with files of other blocks. */
  predicate Harmless(event: Event, blocks: seq<Bytes>) {
    match event
    case Start(_, _, _) => false
    case Go => true
    case Die => false
    case EditFile(h, _) => h.content !in blocks
    case DeleteFile(h) => h.content !in blocks
    case EditTmp(h, _) => h.content !in blocks
    case DeleteTmp(h) => h.content !in blocks
  }

  /** The files of these blocks are as before, or newly stored with their own content. */
  ghost predicate Stored(before: map<Digest, Bytes>, files: map<Digest, Bytes>, blocks: seq<Bytes>) {
    forall b :: b in blocks ==>
      if Sha256(b) in before then Sha256(b) in files && files[Sha256(b)] == before[Sha256(b)]
      else Sha256(b) in files ==> Intact(files, b)
  }

  ghost predicate Taking(before: map<Digest, Bytes>, s: State, lsn: Lsn, prov: Provenance, blocks: seq<Bytes>) {
    && Stored(before, s.kv.files, blocks)
    && WriterOk(s.writer)
    && match s.writer
       case Idle =>
         && InForce(s.kv, lsn, Some((prov, blocks)))
         && forall b :: b in blocks ==> Sha256(b) in s.kv.files
       case Snapping(l, p, bs, hashes, wrote) =>
         && l == lsn && p == prov && bs == blocks
         && (forall j :: 0 <= j < |hashes| && j < |blocks| ==> Sha256(blocks[j]) in s.kv.files)
         && (wrote ==> Next(s.writer) in s.kv.tmps && s.kv.tmps[Next(s.writer)] == Next(s.writer).content
                       && Next(s.writer) !in before)
  }

  /** Operations still to perform. */
  function Left(w: Writer): nat {
    if w.Idle? || |w.hashes| > |w.blocks| then 0 else 2 * (|w.blocks| - |w.hashes|) + if w.wrote then 0 else 1
  }

  lemma GoKeepsTaking(before: map<Digest, Bytes>, s: State, lsn: Lsn, prov: Provenance, blocks: seq<Bytes>)
    requires Taking(before, s, lsn, prov, blocks)
    ensures Taking(before, Step(s, Go), lsn, prov, blocks)
    ensures Left(Step(s, Go).writer) <= Left(s.writer)
    ensures Left(s.writer) > 0 ==> Left(Step(s, Go).writer) < Left(s.writer)
  {
    hide TotalBytes;
    if s.writer.Snapping? {
      StepKeepsWriterOk(s, Go);
      if |s.writer.hashes| == |blocks| {
        assert Hashes(blocks)[..|s.writer.hashes|] == Hashes(blocks);
        forall b | b in blocks ensures Sha256(b) in s.kv.files {
          var j :| 0 <= j < |blocks| && blocks[j] == b;
        }
      } else {
        assert s.writer.blocks[|s.writer.hashes|] in blocks;
      }
    }
  }

  lemma HarmlessKeepsTaking(before: map<Digest, Bytes>, s: State, event: Event, lsn: Lsn, prov: Provenance,
      blocks: seq<Bytes>)
    requires Taking(before, s, lsn, prov, blocks) && Harmless(event, blocks) && !event.Go?
    ensures Taking(before, Step(s, event), lsn, prov, blocks) && Step(s, event).writer == s.writer
  {
    hide TotalBytes;
    var s' := Step(s, event);
    forall b | b in blocks
      ensures Sha256(b) in s'.kv.files <==> Sha256(b) in s.kv.files
      ensures Sha256(b) in s.kv.files ==> s'.kv.files[Sha256(b)] == s.kv.files[Sha256(b)]
      ensures Sha256(b) in s'.kv.tmps <==> Sha256(b) in s.kv.tmps
      ensures Sha256(b) in s.kv.tmps ==> s'.kv.tmps[Sha256(b)] == s.kv.tmps[Sha256(b)]
    {
    }
  }

  lemma {:induction false} TakingRuns(before: map<Digest, Bytes>, s: State, events: seq<Event>, lsn: Lsn,
                                      prov: Provenance, blocks: seq<Bytes>)
    requires Taking(before, s, lsn, prov, blocks) && forall e :: e in events ==> Harmless(e, blocks)
    ensures var s' := Exec(s, events);
            && Taking(before, s', lsn, prov, blocks)
            && (Left(s'.writer) == 0 || Left(s'.writer) + Count(events, Go) <= Left(s.writer))
    decreases |events|
  {
    if events != [] {
      hide Taking, Left;
      if events[0].Go? {
        GoKeepsTaking(before, s, lsn, prov, blocks);
      } else {
        HarmlessKeepsTaking(before, s, events[0], lsn, prov, blocks);
      }
      hide Step;
      TakingRuns(before, Step(s, events[0]), events[1..], lsn, prov, blocks);
    }
  }

  /** ROUND TRIP, exactly: a snapshot whose blocks nobody else touches completes within two operations per block
      and one more, whatever happens to other files meanwhile, and then restores if and only if none of its
      blocks was already stored corrupt when it started; storing again does not heal a corrupt file. */
  lemma SnapshotThenRestore(s: State, lsn: Lsn, prov: Provenance, blocks: seq<Bytes>, during: seq<Event>)
    requires s.writer.Idle? && forall e :: e in during ==> Harmless(e, blocks)
    requires Count(during, Go) >= 2 * |blocks| + 1
    ensures var s' := Exec(Step(s, Start(lsn, prov, blocks)), during);
            && s'.writer.Idle?
            && (Restore(s'.kv, lsn, prov) == RestoredBlocks(blocks) <==> NoneCorrupt(s.kv.files, blocks))
  {
    var s1 := Step(s, Start(lsn, prov, blocks));
    assert Hashes(blocks)[..0] == [];
    TakingRuns(s.kv.files, s1, during, lsn, prov, blocks);
    var s' := Exec(s1, during);
    assert s'.writer.Idle?;
    ReadBlocksIs(s'.kv.files, blocks, []);
    assert [] + blocks == blocks;
    assert forall b :: b in blocks ==>
        (Intact(s'.kv.files, b) <==> (Sha256(b) in s.kv.files ==> Intact(s.kv.files, b)));
  }

  // ---- later snapshots of other turns ----

  /** Snapshots of other turns, cut, failed or complete, and tampering with any temp file and with files of
      other blocks. */
  predicate OfOthers(event: Event, lsn: Lsn, blocks: seq<Bytes>) {
    match event
    case Start(l, _, _) => l != lsn
    case EditFile(h, _) => h.content !in blocks
    case DeleteFile(h) => h.content !in blocks
    case _ => true
  }

  /** The view of one turn is complete, and nobody is about to rename onto one of its files. */
  ghost predicate Kept(s: State, lsn: Lsn, prov: Provenance, blocks: seq<Bytes>) {
    && InForce(s.kv, lsn, Some((prov, blocks))) && AllIntact(s.kv.files, blocks)
    && WriterOk(s.writer)
    && (s.writer.Snapping? ==> s.writer.lsn != lsn && (s.writer.wrote ==> Next(s.writer).content !in blocks))
  }

  lemma OtherKeepsKept(s: State, event: Event, lsn: Lsn, prov: Provenance, blocks: seq<Bytes>)
    requires Kept(s, lsn, prov, blocks) && OfOthers(event, lsn, blocks)
    ensures Kept(Step(s, event), lsn, prov, blocks)
  {
    hide TotalBytes;
    StepKeepsWriterOk(s, event);
  }

  lemma {:induction false} OthersKeepKept(s: State, events: seq<Event>, lsn: Lsn, prov: Provenance, blocks: seq<Bytes>)
    requires Kept(s, lsn, prov, blocks) && forall e :: e in events ==> OfOthers(e, lsn, blocks)
    ensures Kept(Exec(s, events), lsn, prov, blocks)
    decreases |events|
  {
    if events != [] {
      OtherKeepsKept(s, events[0], lsn, prov, blocks);
      hide Kept, Step;
      OthersKeepKept(Step(s, events[0]), events[1..], lsn, prov, blocks);
    }
  }

  /** The round trip survives any later snapshots of other turns, whatever becomes of them, and tampering with any
      file but those of its blocks. */
  lemma RoundTripThroughOthers(s: State, lsn: Lsn, prov: Provenance, blocks: seq<Bytes>, during: seq<Event>,
      later: seq<Event>)
    requires s.writer.Idle? && NoneCorrupt(s.kv.files, blocks)
    requires forall e :: e in during ==> Harmless(e, blocks)
    requires Count(during, Go) >= 2 * |blocks| + 1
    requires forall e :: e in later ==> OfOthers(e, lsn, blocks)
    ensures var s' := Exec(Exec(Step(s, Start(lsn, prov, blocks)), during), later);
            Restore(s'.kv, lsn, prov) == RestoredBlocks(blocks)
  {
    var s1 := Step(s, Start(lsn, prov, blocks));
    assert Hashes(blocks)[..0] == [];
    TakingRuns(s.kv.files, s1, during, lsn, prov, blocks);
    var s2 := Exec(s1, during);
    assert Kept(s2, lsn, prov, blocks);
    OthersKeepKept(s2, later, lsn, prov, blocks);
    ReadBlocksIs(Exec(s2, later).kv.files, blocks, []);
    assert [] + blocks == blocks;
  }

  // ---- the sequential snapshot ----

  lemma {:induction false} ExecSplit(s: State, e1: seq<Event>, e2: seq<Event>)
    ensures Exec(s, e1 + e2) == Exec(Exec(s, e1), e2)
    decreases |e1|
  {
    if e1 == [] {
      assert e1 + e2 == e2;
    } else {
      assert (e1 + e2)[0] == e1[0] && (e1 + e2)[1..] == e1[1..] + e2;
      ExecSplit(Step(s, e1[0]), e1[1..], e2);
    }
  }

  /** The snapshot from block `i` on, with `fuel` durable operations, is a schedule; a cut one dies. */
  lemma {:induction false} PutAllIsSchedule(s: State, i: nat, fuel: nat) returns (events: seq<Event>)
    requires s.writer.Snapping? && !s.writer.wrote && i == |s.writer.hashes| <= |s.writer.blocks|
    ensures forall e :: e in events ==> e == Go
    ensures var w := s.writer;
            var r := PutAll(s.kv, w.blocks[i..], fuel, w.hashes);
            && Exec(s, events).kv == r.kv
            && (r.Returned? ==> Exec(s, events).writer == w.(hashes := r.result))
            && (r.Returned? ==> |r.result| == |w.blocks|)
    decreases |s.writer.blocks| - i
  {
    var w := s.writer;
    events := [];
    if i < |w.blocks| {
      assert w.blocks[i..][0] == w.blocks[i] && w.blocks[i..][1..] == w.blocks[i + 1..];
      var p := Put(s.kv, w.blocks[i], fuel);
      events := OnePutIsSchedule(s, i, fuel);
      if p.Returned? {
        var s1 := Exec(s, events);
        var rest := PutAllIsSchedule(s1, i + 1, p.fuel);
        ExecSplit(s, events, rest);
        events := events + rest;
      }
    }
  }

  lemma OnePutIsSchedule(s: State, i: nat, fuel: nat) returns (events: seq<Event>)
    requires s.writer.Snapping? && !s.writer.wrote && i == |s.writer.hashes| < |s.writer.blocks|
    ensures forall e :: e in events ==> e == Go
    ensures var w := s.writer;
            var p := Put(s.kv, w.blocks[i], fuel);
            && Exec(s, events).kv == p.kv
            && (p.Returned? ==> Exec(s, events).writer == w.(hashes := w.hashes + [p.result]))
  {
    var h := Next(s.writer);
    if h in s.kv.files {
      events := [Go];
      assert Exec(s, events) == Exec(Step(s, Go), []);
    } else if fuel == 0 {
      events := [];
    } else if fuel == 1 {
      events := [Go];
      assert Exec(s, events) == Exec(Step(s, Go), []);
    } else {
      events := [Go, Go];
      assert events[1..] == [Go];
      assert Exec(s, events) == Exec(Step(s, Go), [Go]) == Exec(Step(Step(s, Go), Go), []);
    }
  }

  /** One call of `snapshot`, cut anywhere, is a schedule of its operations. */
  lemma SnapshotIsSchedule(kv: Kv, lsn: Lsn, prov: Provenance, blocks: seq<Bytes>, fuel: nat)
    returns (events: seq<Event>)
    ensures forall e :: e in events ==> e == Go
    ensures var r := Snapshot(kv, lsn, prov, blocks, fuel);
            var s' := Exec(Step(State(kv, Idle), Start(lsn, prov, blocks)), events);
            s'.kv == r.kv && (r.Returned? ==> s'.writer.Idle?)
  {
    var s := State(kv, Snapping(lsn, prov, blocks, [], false));
    assert blocks[0..] == blocks;
    events := PutAllIsSchedule(s, 0, fuel);
    var p := PutAll(kv, blocks, fuel, []);
    if p.Returned? && p.fuel > 0 {
      ExecSplit(s, events, [Go]);
      var s1 := Exec(s, events);
      assert Exec(s1, [Go]) == Exec(Step(s1, Go), []);
      events := events + [Go];
    }
  }
}
