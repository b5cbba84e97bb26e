/** What a snapshot costs and leaves, exactly, and what a prefix hash is of. */
module KvExact {
  import opened Identity
  import opened KvView

  /** The distinct blocks that have no file yet. */
  function NewBlocks(files: map<Digest, Bytes>, blocks: seq<Bytes>): set<Bytes> {
    set b | b in blocks && Sha256(b) !in files
  }

  /** Storing one block: nothing if its file is there, and otherwise a temp file and then its rename. */
  lemma PutIs(kv: Kv, content: Bytes, fuel: nat)
    ensures var r, h := Put(kv, content, fuel), Sha256(content);
            if h in kv.files then r == Returned(kv, fuel, h)
            else if fuel == 0 then r == Died(kv)
            else if fuel == 1 then r == Died(Kv(kv.files, kv.tmps[h := content], kv.manifests))
            else r == Returned(Kv(kv.files[h := content], kv.tmps - {h}, kv.manifests), fuel - 2, h)
  {
    var h := Sha256(content);
    assert kv.tmps[h := content] - {h} == kv.tmps - {h};
  }

  /** The store with these blocks added, each under its own digest and with no temp file left, and perhaps the temp
      file of one more. */
  function Leaves(kv: Kv, added: set<Bytes>, temp: Option<Bytes>): Kv {
    var tmps := kv.tmps - Digests(added);
    Kv(kv.files + Own(added), if temp.Some? then tmps[Sha256(temp.value) := temp.value] else tmps, kv.manifests)
  }

  /** Each block under its own digest. */
  function Own(blocks: set<Bytes>): map<Digest, Bytes> {
    map h | h in Digests(blocks) :: h.content
  }

  lemma AddFirst(kv: Kv, b: Bytes, more: set<Bytes>, temp: Option<Bytes>)
    requires b !in more && temp != Some(b)
    ensures Leaves(Kv(kv.files[Sha256(b) := b], kv.tmps - {Sha256(b)}, kv.manifests), more, temp) ==
            Leaves(kv, more + {b}, temp)
  {
    var h := Sha256(b);
    assert Digests(more + {b}) == Digests(more) + {h} && h !in Digests(more);
    assert Own(more + {b}) == Own(more)[h := b];
    hide Digests, Own;
    assert kv.files[h := b] + Own(more) == kv.files + Own(more)[h := b] by {
      assert h !in Own(more) by {
        OwnKeys(more);
      }
    }
    assert kv.tmps - {h} - Digests(more) == kv.tmps - (Digests(more) + {h});
  }

  lemma OwnKeys(blocks: set<Bytes>)
    ensures Own(blocks).Keys == Digests(blocks)
  {
  }

  lemma AddNone(kv: Kv, temp: Option<Bytes>)
    ensures Leaves(kv, {}, temp) ==
            Kv(kv.files, if temp.Some? then kv.tmps[Sha256(temp.value) := temp.value] else kv.tmps, kv.manifests)
  {
  }

  /** Storing a list of blocks takes two operations per distinct block that has no file, and adds exactly these; cut
      short, it has added one per two operations, and an odd operation left the temp file of one more. */
  lemma {:induction false} PutAllExactly(kv: Kv, blocks: seq<Bytes>, fuel: nat, hashes: seq<Digest>)
    returns (added: set<Bytes>, temp: Option<Bytes>)
    ensures var r, missing := PutAll(kv, blocks, fuel, hashes), NewBlocks(kv.files, blocks);
            && r.kv == Leaves(kv, added, temp) && added <= missing
            && (r.Died? <==> fuel < 2 * |missing|)
            && (r.Returned? ==> r.fuel == fuel - 2 * |missing| && added == missing && temp.None?)
            && (r.Died? ==> |added| == fuel / 2 && (temp.Some? <==> fuel % 2 == 1))
            && (temp.Some? ==> temp.value in missing - added)
    decreases |blocks|
  {
    hide Put, Leaves;
    added, temp := {}, None;
    AddNone(kv, None);
    if blocks != [] {
      var b, rest := blocks[0], blocks[1..];
      PutIs(kv, b, fuel);
      var p := Put(kv, b, fuel);
      assert b in blocks && blocks == [b] + rest;
      if Sha256(b) in kv.files {
        assert NewBlocks(kv.files, blocks) == NewBlocks(kv.files, rest);
        added, temp := PutAllExactly(kv, rest, fuel, hashes + [p.result]);
      } else {
        var later := NewBlocks(kv.files[Sha256(b) := b], rest);
        assert NewBlocks(kv.files, blocks) == later + {b} && b !in later;
        if p.Returned? {
          var more, last := PutAllExactly(p.kv, rest, p.fuel, hashes + [p.result]);
          added, temp := more + {b}, last;
          AddFirst(kv, b, more, last);
        } else if fuel == 1 {
          temp := Some(b);
          AddNone(kv, temp);
        }
      }
    }
  }

  function Join(blocks: seq<Bytes>): Bytes {
    if blocks == [] then [] else blocks[0] + Join(blocks[1..])
  }

  /** The size in a manifest is that of the blocks joined. */
  lemma {:induction false} TotalBytesIs(blocks: seq<Bytes>)
    ensures TotalBytes(blocks) == |Join(blocks)|
  {
    if blocks != [] {
      TotalBytesIs(blocks[1..]);
    }
  }

  /** A SNAPSHOT, EXACTLY, from any store: it takes two operations per distinct block that has no file and one for the
      manifest, which lists the digest of every block in order with their total size; cut short by even one operation,
      it leaves every manifest as it was. */
  lemma SnapshotExactly(kv: Kv, lsn: Lsn, prov: Provenance, blocks: seq<Bytes>, fuel: nat)
    ensures var r, missing := Snapshot(kv, lsn, prov, blocks, fuel), NewBlocks(kv.files, blocks);
            && (r.Died? <==> fuel < 2 * |missing| + 1)
            && (r.Died? ==> r.kv.manifests == kv.manifests)
            && (r.Returned? ==>
                  && r.fuel == fuel - 2 * |missing| - 1
                  && r.kv == Leaves(kv, missing, None).(manifests := kv.manifests[lsn := r.result])
                  && r.result.provKey == ProvKeyOf(prov) && r.result.totalBytes == |Join(blocks)|
                  && r.result.blocks == seq(|blocks|, i requires 0 <= i < |blocks| => Sha256(blocks[i])))
  {
    hide Leaves, Put;
    var added, temp := PutAllExactly(kv, blocks, fuel, []);
    PutAllIs(kv, blocks, fuel, []);
    TotalBytesIs(blocks);
    assert [] + Hashes(blocks) == Hashes(blocks);
    LeavesManifests(kv, added, temp);
    hide PutAll;
  }

  lemma LeavesManifests(kv: Kv, added: set<Bytes>, temp: Option<Bytes>)
    ensures Leaves(kv, added, temp).manifests == kv.manifests
  {
  }

  // ---- the prefix hash ----

  /** The four bytes are the number, modulo 2 to the 32nd, lowest first. */
  lemma PackIntIs(t: int)
    requires INT_MIN <= t <= INT_MAX
    ensures var b := PackInt(t);
            b[0] as int + 256 * b[1] as int + 65536 * b[2] as int + 16777216 * b[3] as int ==
              if t < 0 then t + 0x1_0000_0000 else t
  {
    var u := Unsigned(t);
    LowBytes(u);
    assert u == u % 256 + 256 * (u / 256) && u / 256 == u / 256 % 256 + 256 * (u / 256 / 256);
    assert u / 65536 == u / 65536 % 256 + 256 * (u / 16777216);
  }

  /** A token takes four bytes, in order. */
  lemma {:induction false} PackAllIs(tokens: seq<int>)
    requires Packable(tokens)
    ensures |PackAll(tokens)| == 4 * |tokens|
    ensures forall i :: 0 <= i < |tokens| ==> PackAll(tokens)[4 * i..4 * i + 4] == PackInt(tokens[i])
  {
    hide PackInt;
    if tokens != [] {
      PackAllIs(tokens[1..]);
      forall i | 0 <= i < |tokens| ensures PackAll(tokens)[4 * i..4 * i + 4] == PackInt(tokens[i]) {
        if i > 0 {
          assert PackAll(tokens)[4 * i..4 * i + 4] == PackAll(tokens[1..])[4 * (i - 1)..4 * (i - 1) + 4];
        }
      }
    }
  }
}
