/** The KV cache as a verified view: a content-addressed block store, a manifest per turn, and a restore
    that gives back blocks only when everything checks.

    Durable operations consume `fuel`, and the process dies before the operation it has no fuel for.
    What others do to the files meanwhile is the subject of `KvHistory`. */
module KvView {
  import opened Identity

  newtype byte = x: int | 0 <= x < 256
  type Bytes = seq<byte>

  /** SHA-256 without collisions: a digest remembers the hashed bytes. */
  datatype Digest = Sha256(content: Bytes)

  datatype Provenance = Provenance(model: string, tokenizer: string, dtype: string, blockSize: int, numLayers: int,
                                   numKvHeads: int, headDim: int, rope: string, adapter: string, prefixHash: Digest)

  /** The digest of the sorted JSON of all fields. */
  datatype ProvKey = ProvKeyOf(prov: Provenance)

  type Lsn = string
  datatype Manifest = Manifest(provKey: ProvKey, blocks: seq<Digest>, totalBytes: nat)

  datatype Kv = Kv(files: map<Digest, Bytes>, tmps: map<Digest, Bytes>, manifests: map<Lsn, Manifest>)

  datatype Cut<+R> = Died(kv: Kv) | Returned(kv: Kv, fuel: nat, result: R)

  datatype Restored =
    | RestoredBlocks(blocks: seq<Bytes>)
    | ManifestMissing
    | ProvenanceMismatch
    | BlockCorruptOrMissing

  const EMPTY := Kv(map[], map[], map[])

  // ---- block store ----

  function Put(kv: Kv, content: Bytes, fuel: nat): Cut<Digest> {
    var h := Sha256(content);
    if h in kv.files then Returned(kv, fuel, h)
    else if fuel == 0 then Died(kv)
    else
      var written := kv.(tmps := kv.tmps[h := content]);
      if fuel == 1 then Died(written)
      else Returned(written.(files := written.files[h := written.tmps[h]], tmps := written.tmps - {h}), fuel - 2, h)
  }

  function Get(files: map<Digest, Bytes>, h: Digest): Option<Bytes> {
    if h in files && Sha256(files[h]) == h then Some(files[h]) else None
  }

  function PutAll(kv: Kv, blocks: seq<Bytes>, fuel: nat, hashes: seq<Digest>): Cut<seq<Digest>>
    decreases |blocks|
  {
    if blocks == [] then Returned(kv, fuel, hashes)
    else
      match Put(kv, blocks[0], fuel)
      case Died(kv') => Died(kv')
      case Returned(kv', left, h) => PutAll(kv', blocks[1..], left, hashes + [h])
  }

  function TotalBytes(blocks: seq<Bytes>): nat {
    if blocks == [] then 0 else |blocks[0]| + TotalBytes(blocks[1..])
  }

  function Hashes(blocks: seq<Bytes>): seq<Digest> {
    seq(|blocks|, i requires 0 <= i < |blocks| => Sha256(blocks[i]))
  }

  // ---- the view ----

  function Snapshot(kv: Kv, lsn: Lsn, prov: Provenance, blocks: seq<Bytes>, fuel: nat): Cut<Manifest> {
    match PutAll(kv, blocks, fuel, [])
    case Died(kv') => Died(kv')
    case Returned(kv', left, hashes) =>
      var manifest := Manifest(ProvKeyOf(prov), hashes, TotalBytes(blocks));
      if left == 0 then Died(kv')
      else Returned(kv'.(manifests := kv'.manifests[lsn := manifest]), left - 1, manifest)
  }

  function ReadBlocks(files: map<Digest, Bytes>, hashes: seq<Digest>, out: seq<Bytes>): Restored
    decreases |hashes|
  {
    if hashes == [] then RestoredBlocks(out)
    else
      match Get(files, hashes[0])
      case None => BlockCorruptOrMissing
      case Some(b) => ReadBlocks(files, hashes[1..], out + [b])
  }

  function Restore(kv: Kv, lsn: Lsn, current: Provenance): Restored {
    if lsn !in kv.manifests then ManifestMissing
    else if kv.manifests[lsn].provKey != ProvKeyOf(current) then ProvenanceMismatch
    else ReadBlocks(kv.files, kv.manifests[lsn].blocks, [])
  }

  lemma {:induction false} PutAllIs(kv: Kv, blocks: seq<Bytes>, fuel: nat, hashes: seq<Digest>)
    ensures var r := PutAll(kv, blocks, fuel, hashes);
            && r.kv.manifests == kv.manifests
            && (forall h :: h in kv.files ==> h in r.kv.files && r.kv.files[h] == kv.files[h])
            && (forall h :: h in r.kv.files && h !in kv.files ==> r.kv.files[h] == h.content && h.content in blocks)
            && (r.Returned? ==> r.result == hashes + Hashes(blocks)
                                && forall b :: b in blocks ==> Sha256(b) in r.kv.files)
            && (fuel >= 2 * |blocks| ==> r.Returned? && r.fuel >= fuel - 2 * |blocks|)
    decreases |blocks|
  {
    if blocks != [] {
      var p := Put(kv, blocks[0], fuel);
      assert blocks == [blocks[0]] + blocks[1..];
      if p.Returned? {
        PutAllIs(p.kv, blocks[1..], p.fuel, hashes + [p.result]);
        assert Hashes(blocks) == [Sha256(blocks[0])] + Hashes(blocks[1..]);
        assert hashes + [p.result] + Hashes(blocks[1..]) == hashes + Hashes(blocks);
      }
    } else {
      assert hashes + Hashes(blocks) == hashes;
    }
  }

  /** The file of a block is present with the block's own bytes. */
  predicate Intact(files: map<Digest, Bytes>, b: Bytes) {
    Sha256(b) in files && files[Sha256(b)] == b
  }

  lemma {:induction false} ReadBlocksIs(files: map<Digest, Bytes>, blocks: seq<Bytes>, out: seq<Bytes>)
    ensures ReadBlocks(files, Hashes(blocks), out) ==
              if forall b :: b in blocks ==> Intact(files, b) then RestoredBlocks(out + blocks)
              else BlockCorruptOrMissing
    decreases |blocks|
  {
    if blocks == [] {
      assert out + blocks == out;
    } else {
      assert Hashes(blocks)[1..] == Hashes(blocks[1..]);
      assert blocks == [blocks[0]] + blocks[1..];
      if Intact(files, blocks[0]) {
        ReadBlocksIs(files, blocks[1..], out + [blocks[0]]);
        assert out + [blocks[0]] + blocks[1..] == out + blocks;
      }
    }
  }

  /** A snapshot that is cut leaves the previous manifest in force. */
  lemma CutSnapshotKeepsManifests(kv: Kv, lsn: Lsn, prov: Provenance, blocks: seq<Bytes>, fuel: nat)
    ensures var r := Snapshot(kv, lsn, prov, blocks, fuel);
            && (r.Died? ==> r.kv.manifests == kv.manifests)
            && (fuel > 2 * |blocks| ==> r.Returned?)
  {
    PutAllIs(kv, blocks, fuel, []);
  }

  /** No file already stored for these blocks is corrupt. */
  ghost predicate NoneCorrupt(files: map<Digest, Bytes>, blocks: seq<Bytes>) {
    forall b :: b in blocks && Sha256(b) in files ==> Intact(files, b)
  }

  /** ROUND TRIP, exactly: a completed snapshot restores at once if and only if none of its blocks was
      already stored corrupt; storing again does not heal a corrupt file. */
  lemma SnapshotThenRestore(kv: Kv, lsn: Lsn, prov: Provenance, blocks: seq<Bytes>, fuel: nat)
    requires Snapshot(kv, lsn, prov, blocks, fuel).Returned?
    ensures var r := Snapshot(kv, lsn, prov, blocks, fuel);
            Restore(r.kv, lsn, prov) == RestoredBlocks(blocks) <==> NoneCorrupt(kv.files, blocks)
  {
    var r := Snapshot(kv, lsn, prov, blocks, fuel);
    PutAllIs(kv, blocks, fuel, []);
    assert [] + Hashes(blocks) == Hashes(blocks);
    ReadBlocksIs(r.kv.files, blocks, []);
    assert [] + blocks == blocks;
    forall b | b in blocks
      ensures Intact(r.kv.files, b) <==> (Sha256(b) in kv.files ==> Intact(kv.files, b))
    {
    }
  }

  // ---- deduplication ----

  datatype Snap = Snap(lsn: Lsn, prov: Provenance, blocks: seq<Bytes>, fuel: nat)

  function Take(kv: Kv, snap: Snap): Cut<Manifest> {
    Snapshot(kv, snap.lsn, snap.prov, snap.blocks, snap.fuel)
  }

  function TakeAll(kv: Kv, snaps: seq<Snap>): Kv
    decreases |snaps|
  {
    if snaps == [] then kv else TakeAll(Take(kv, snaps[0]).kv, snaps[1..])
  }

  function Contents(snaps: seq<Snap>): set<Bytes> {
    if snaps == [] then {} else (set b | b in snaps[0].blocks) + Contents(snaps[1..])
  }

  function Digests(contents: set<Bytes>): set<Digest> {
    set b | b in contents :: Sha256(b)
  }

  lemma {:induction false} AsManyDigests(contents: set<Bytes>)
    ensures |Digests(contents)| == |contents|
  {
    if contents != {} {
      var b :| b in contents;
      AsManyDigests(contents - {b});
      assert Digests(contents) == Digests(contents - {b}) + {Sha256(b)};
    }
  }

  ghost predicate AllComplete(kv: Kv, snaps: seq<Snap>)
    decreases |snaps|
  {
    snaps == [] || (Take(kv, snaps[0]).Returned? && AllComplete(Take(kv, snaps[0]).kv, snaps[1..]))
  }

  lemma {:induction false} StoredAre(kv: Kv, snaps: seq<Snap>)
    requires AllComplete(kv, snaps)
    ensures TakeAll(kv, snaps).files.Keys == kv.files.Keys + Digests(Contents(snaps))
    decreases |snaps|
  {
    if snaps != [] {
      var snap := snaps[0];
      PutAllIs(kv, snap.blocks, snap.fuel, []);
      var now := set b | b in snap.blocks;
      assert Take(kv, snap).kv.files.Keys == kv.files.Keys + Digests(now) by {
        forall h | h in Take(kv, snap).kv.files && h !in kv.files ensures h in Digests(now) {
          assert h == Sha256(h.content);
        }
      }
      StoredAre(Take(kv, snap).kv, snaps[1..]);
      assert Digests(Contents(snaps)) == Digests(now) + Digests(Contents(snaps[1..]));
    }
  }

  /** DEDUPLICATION: from an empty store, completed snapshots store one object per distinct block. */
  lemma OneObjectPerBlock(snaps: seq<Snap>)
    requires AllComplete(EMPTY, snaps)
    ensures |TakeAll(EMPTY, snaps).files| == |Contents(snaps)|
  {
    StoredAre(EMPTY, snaps);
    AsManyDigests(Contents(snaps));
    assert TakeAll(EMPTY, snaps).files.Keys == Digests(Contents(snaps));
  }

  // ---- the prefix hash ----

  const INT_MIN := -0x8000_0000
  const INT_MAX := 0x7fff_ffff

  function Unsigned(t: int): (u: int)
    requires INT_MIN <= t <= INT_MAX
    ensures 0 <= u < 0x1_0000_0000
  {
    if t < 0 then t + 0x1_0000_0000 else t
  }

  /** struct.pack("<i", t): four little-endian bytes of the two's complement. */
  function PackInt(t: int): (r: Bytes)
    requires INT_MIN <= t <= INT_MAX
    ensures |r| == 4
  {
    var u := Unsigned(t);
    [(u % 256) as byte, (u / 256 % 256) as byte, (u / 65536 % 256) as byte, (u / 16777216 % 256) as byte]
  }

  predicate Packable(tokens: seq<int>) {
    forall i :: 0 <= i < |tokens| ==> INT_MIN <= tokens[i] <= INT_MAX
  }

  function PackAll(tokens: seq<int>): Bytes
    requires Packable(tokens)
  {
    if tokens == [] then [] else PackInt(tokens[0]) + PackAll(tokens[1..])
  }

  /** Packing raises on a token outside the 32-bit range. */
  function PrefixHash(tokens: seq<int>): Option<Digest> {
    if Packable(tokens) then Some(Sha256(PackAll(tokens))) else None
  }

  /** Splitting off the low byte twice is dividing by 65536. */
  lemma LowBytes(u: int)
    requires 0 <= u < 0x1_0000_0000
    ensures u / 65536 == u / 256 / 256 && u / 16777216 == u / 256 / 256 / 256
    ensures u / 16777216 < 256
  {
  }

  lemma BytesDetermine(u: int, v: int)
    requires 0 <= u < 0x1_0000_0000 && 0 <= v < 0x1_0000_0000
    requires u / 16777216 % 256 == v / 16777216 % 256 && u / 65536 % 256 == v / 65536 % 256
    requires u / 256 % 256 == v / 256 % 256 && u % 256 == v % 256
    ensures u == v
  {
    LowBytes(u);
    LowBytes(v);
    assert u / 65536 == v / 65536;
    assert u / 256 == v / 256;
  }

  lemma PackIntInjective(s: int, t: int)
    requires INT_MIN <= s <= INT_MAX && INT_MIN <= t <= INT_MAX
    ensures PackInt(s) == PackInt(t) <==> s == t
  {
    var p, q := PackInt(s), PackInt(t);
    var u, v := Unsigned(s), Unsigned(t);
    if p == q {
      assert p[0] == q[0] && p[1] == q[1] && p[2] == q[2] && p[3] == q[3];
      BytesDetermine(u, v);
    }
  }

  lemma PackAllEmpty(s: seq<int>)
    requires Packable(s)
    ensures PackAll(s) == [] <==> s == []
  {
    if s != [] {
      assert |PackAll(s)| >= |PackInt(s[0])|;
    }
  }

  lemma {:induction false} PackAllInjective(s: seq<int>, t: seq<int>)
    requires Packable(s) && Packable(t)
    ensures PackAll(s) == PackAll(t) <==> s == t
  {
    hide PackInt;
    if s == [] || t == [] {
      PackAllEmpty(s);
      PackAllEmpty(t);
    } else {
      PackAllInjective(s[1..], t[1..]);
      PackIntInjective(s[0], t[0]);
      assert s == [s[0]] + s[1..] && t == [t[0]] + t[1..];
      if PackAll(s) == PackAll(t) {
        assert PackInt(s[0]) == PackAll(s)[..4] == PackAll(t)[..4] == PackInt(t[0]);
        assert PackAll(s[1..]) == PackAll(s)[4..] == PackAll(t)[4..] == PackAll(t[1..]);
      }
    }
  }

  /** Equal prefix hashes mean equal committed prefixes. */
  lemma PrefixHashInjective(s: seq<int>, t: seq<int>)
    requires PrefixHash(s).Some?
    ensures PrefixHash(s) == PrefixHash(t) <==> s == t
  {
    if Packable(t) {
      PackAllInjective(s, t);
    }
  }
}
