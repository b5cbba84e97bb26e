/** The objects behind the KV view: block store, manifest table and view, updated in place. */
module KvObjects {
  import opened Identity
  import opened KvView
  import opened KvExact

  class BlockCAS {
    var files: map<Digest, Bytes>
    var tmps: map<Digest, Bytes>

    constructor ()
      ensures files == map[] && tmps == map[]
    {
      files, tmps := map[], map[];
    }

    function Stored(manifests: map<Lsn, Manifest>): Kv
      reads this
    {
      Kv(files, tmps, manifests)
    }

    /** Write the temp file, then publish it by renaming; an existing path is left alone. */
    method Put(content: Bytes, fuel: nat) returns (r: Option<(nat, Digest)>)
      modifies this
      ensures forall m :: Result(Stored(m), r) == KvView.Put(old(Stored(m)), content, fuel)
      ensures var h := Sha256(content);
              && (h in old(files) ==> files == old(files) && tmps == old(tmps) && r == Some((fuel, h)))
              && (h !in old(files) && fuel >= 2 ==>
                    files == old(files)[h := content] && tmps == old(tmps) - {h} && r == Some((fuel - 2, h)))
              && (h !in old(files) && fuel < 2 ==> files == old(files) && r.None?)
              && (h !in old(files) && fuel == 1 ==> tmps == old(tmps)[h := content])
    {
      var h := Sha256(content);
      PutIs(Stored(map[]), content, fuel);
      var left := fuel;
      if h !in files {
        if left == 0 {
          return None;
        }
        tmps := tmps[h := content];
        if left == 1 {
          return None;
        }
        files, tmps := files[h := tmps[h]], tmps - {h};
        left := left - 2;
      }
      return Some((left, h));
    }

    /** The checksum is verified again on every read. */
    method Get(h: Digest) returns (r: Option<Bytes>)
      ensures r == KvView.Get(files, h)
      ensures r.Some? <==> h in files && files[h] == h.content
      ensures r.Some? ==> r.value == h.content
    {
      if h !in files {
        return None;
      }
      var b := files[h];
      if Sha256(b) != h {
        return None;
      }
      return Some(b);
    }
  }

  class ManifestStore {
    var table: map<Lsn, Manifest>

    constructor ()
      ensures table == map[]
    {
      table := map[];
    }

    method Put(lsn: Lsn, manifest: Manifest)
      modifies this
      ensures table == old(table)[lsn := manifest]
    {
      table := table[lsn := manifest];
    }

    method Get(lsn: Lsn) returns (r: Option<Manifest>)
      ensures r == if lsn in table then Some(table[lsn]) else None
    {
      return if lsn in table then Some(table[lsn]) else None;
    }
  }

  /** What a method that may die hands back: nothing, or the fuel left and its result. */
  function Result<R>(kv: Kv, r: Option<(nat, R)>): Cut<R> {
    if r.None? then Died(kv) else Returned(kv, r.value.0, r.value.1)
  }

  class View {
    const cas: BlockCAS
    const manifests: ManifestStore

    constructor ()
      ensures fresh(cas) && fresh(manifests)
      ensures Contents() == EMPTY
    {
      cas := new BlockCAS();
      manifests := new ManifestStore();
    }

    function Contents(): Kv
      reads cas, manifests
    {
      Kv(cas.files, cas.tmps, manifests.table)
    }

    method Snapshot(lsn: Lsn, prov: Provenance, blocks: seq<Bytes>, fuel: nat) returns (r: Option<(nat, Manifest)>)
      modifies cas, manifests
      ensures Result(Contents(), r) == KvView.Snapshot(old(Contents()), lsn, prov, blocks, fuel)
    {
      hide KvView.Put;
      var hashes := [];
      var left := fuel;
      var i := 0;
      var total := 0;
      while i < |blocks|
        invariant 0 <= i <= |blocks|
        invariant manifests.table == old(manifests.table)
        invariant total + TotalBytes(blocks[i..]) == TotalBytes(blocks)
        invariant PutAll(Contents(), blocks[i..], left, hashes) == PutAll(old(Contents()), blocks, fuel, [])
      {
        assert blocks[i..][0] == blocks[i] && blocks[i..][1..] == blocks[i + 1..];
        ghost var before := Contents();
        assert before == cas.Stored(manifests.table);
        var p := cas.Put(blocks[i], left);
        assert Contents() == cas.Stored(manifests.table);
        assert Result(Contents(), p) == KvView.Put(before, blocks[i], left);
        match p
        case None => return None;
        case Some((rest, h)) =>
          left, hashes := rest, hashes + [h];
          total := total + |blocks[i]|;
          i := i + 1;
      }
      assert blocks[i..] == [];
      if left == 0 {
        return None;
      }
      var manifest := Manifest(ProvKeyOf(prov), hashes, total);
      manifests.Put(lsn, manifest);
      return Some((left - 1, manifest));
    }

    method Restore(lsn: Lsn, current: Provenance) returns (r: Restored)
      ensures r == KvView.Restore(Contents(), lsn, current)
    {
      var raw := manifests.Get(lsn);
      if raw.None? {
        return ManifestMissing;
      }
      var m := raw.value;
      if m.provKey != ProvKeyOf(current) {
        return ProvenanceMismatch;
      }
      var out := [];
      var i := 0;
      while i < |m.blocks|
        invariant 0 <= i <= |m.blocks|
        invariant ReadBlocks(cas.files, m.blocks[i..], out) == ReadBlocks(cas.files, m.blocks, [])
      {
        assert m.blocks[i..][0] == m.blocks[i] && m.blocks[i..][1..] == m.blocks[i + 1..];
        var b := cas.Get(m.blocks[i]);
        if b.None? {
          return BlockCorruptOrMissing;
        }
        out := out + [b.value];
        i := i + 1;
      }
      assert m.blocks[i..] == [];
      return RestoredBlocks(out);
    }
  }
}
