/**
 * The bytes a disk really holds: a sum over its records as they are, without regard to what an entry is made of.  The
 * figures the store computes entry by entry and chunk by chunk are proved to be this sum.
 */
module ArchiveBytes {
  import opened Common
  import opened SnapshotCodec
  import opened CatalogCodec
  import opened ArchiveDisk

  ghost function Any(d: Disk): (k: Key)
    requires d != map[]
    ensures k in d
  {
    assert d.Keys != {};
    var k :| k in d.Keys;
    k
  }

  /** The protected sizes of all records of a disk together. */
  ghost function DiskBytes(d: Disk): nat
    decreases d.Keys
  {
    if d == map[] then 0 else d[Any(d)].size + DiskBytes(d - {Any(d)})
  }

  /** All records kept under one of these ids, whatever they are. */
  ghost function RecordsOf(d: Disk, ids: seq<Bytes>): Disk { map k | k in d && !k.Index? && k.id in ids :: d[k] }

  ghost function BytesOf(d: Disk, ids: seq<Bytes>): nat { DiskBytes(RecordsOf(d, ids)) }

  /** The order in which the records are taken does not matter. */
  lemma {:induction false} OneApart(d: Disk, k: Key)
    requires k in d
    ensures DiskBytes(d) == d[k].size + DiskBytes(d - {k})
    decreases d.Keys
  {
    var first := Any(d);
    if first != k {
      OneApart(d - {first}, k);
      OneApart(d - {k}, first);
      assert d - {first} - {k} == d - {k} - {first};
    }
  }

  lemma {:induction false} Together(a: Disk, b: Disk)
    requires a.Keys !! b.Keys
    ensures DiskBytes(a + b) == DiskBytes(a) + DiskBytes(b)
    decreases b.Keys
  {
    if b == map[] {
      assert a + b == a;
    } else {
      var k := Any(b);
      Together(a, b - {k});
      assert (a + b) - {k} == a + (b - {k});
      OneApart(a + b, k);
    }
  }

  ghost function ChunksBelow(d: Disk, id: Bytes, count: nat): Disk {
    map k | k in d && k.Chunk? && k.id == id && k.part < count :: d[k]
  }

  lemma {:induction false} ChunksAreAll(d: Disk, id: Bytes, count: nat)
    requires forall part: nat :: part < count ==> Chunk(id, part) in d
    ensures DiskBytes(ChunksBelow(d, id, count)) == ChunkSizes(d, id, count)
  {
    if count == 0 {
      assert ChunksBelow(d, id, 0) == map[];
    } else {
      ChunksAreAll(d, id, count - 1);
      OneApart(ChunksBelow(d, id, count), Chunk(id, count - 1));
      assert ChunksBelow(d, id, count) - {Chunk(id, count - 1)} == ChunksBelow(d, id, count - 1);
    }
  }

  /** Under this id there is the entry with all its chunks, and nothing else. */
  ghost predicate Own(d: Disk, id: Bytes) {
    && HasEntry(d, id)
    && forall k :: k in d && k.Chunk? && k.id == id ==> k.part < Stored(d, id).value.chunks
  }

  /** The size the store works out for an entry is that of everything kept under its id. */
  lemma EntrySizeIsBytes(d: Disk, id: Bytes)
    requires Own(d, id)
    ensures EntrySize(d, id) == BytesOf(d, [id])
  {
    hide Decoding;
    var chunks := Stored(d, id).value.chunks;
    ChunksAreAll(d, id, chunks);
    OneApart(RecordsOf(d, [id]), Entry(id));
    assert RecordsOf(d, [id]) - {Entry(id)} == ChunksBelow(d, id, chunks);
  }

  lemma {:induction false} TotalSizeIsBytes(d: Disk, ids: seq<Bytes>)
    requires forall i :: 0 <= i < |ids| ==> HasEntry(d, ids[i]) && Own(d, ids[i])
    requires forall i, j :: 0 <= i < j < |ids| ==> ids[i] != ids[j]
    ensures TotalSize(d, ids) == BytesOf(d, ids)
  {
    hide EntrySize, Stored, HasEntry, Own;
    if ids == [] {
      assert RecordsOf(d, ids) == map[];
    } else {
      var init, last := ids[..|ids| - 1], ids[|ids| - 1];
      TotalSizeIsBytes(d, init);
      EntrySizeIsBytes(d, last);
      assert last !in init;
      assert RecordsOf(d, ids) == RecordsOf(d, init) + RecordsOf(d, [last]);
      Together(RecordsOf(d, init), RecordsOf(d, [last]));
    }
  }

  lemma OwnOfExact(d: Disk, ids: seq<Bytes>)
    requires Exact(d, ids)
    ensures forall i :: 0 <= i < |ids| ==> HasEntry(d, ids[i]) && Own(d, ids[i])
    ensures forall i, j :: 0 <= i < j < |ids| ==> ids[i] != ids[j]
  {
    CatalogInvertsParse(d[Index].plain);
    hide Parsed, Decoding;
  }

  /** On an archive with nothing missing and nothing left over, the catalog and the entries are every byte there is. */
  lemma ExactIsAllBytes(d: Disk, ids: seq<Bytes>)
    requires Exact(d, ids)
    ensures Index in d && DiskBytes(d) == d[Index].size + TotalSize(d, ids)
    ensures DiskBytes(d) == d[Index].size + BytesOf(d, ids)
  {
    OwnOfExact(d, ids);
    TotalSizeIsBytes(d, ids);
    OneApart(d, Index);
    assert d - {Index} == RecordsOf(d, ids);
    hide Parsed, Stored, HasEntry, EntrySize;
  }

  lemma {:induction false} WeightsAreBytes(d: Disk, ids: seq<Bytes>, weights: seq<Weight>, first: nat)
    requires Exact(d, ids) && Weighed(d, ids, weights) && first <= |ids|
    ensures Sum(weights[first..]) == BytesOf(d, ids[first..])
  {
    OwnOfExact(d, ids);
    hide Exact, Stored, HasEntry, EntrySize, Own;
    WeighedTotal(d, ids[first..], weights[first..]);
    TotalSizeIsBytes(d, ids[first..]);
  }

  lemma OwnOfStaged(d: Disk, base: Disk, id: Bytes, chunks: nat)
    requires Unused(base, id) && HasEntry(d, id) && Stored(d, id).value.chunks == chunks
    requires forall k :: k in d && k !in base && k.Chunk? ==> k.part < chunks
    ensures Own(d, id)
  {
    hide Stored;
  }

  /** The first `prune` ids give way to an entry of `extra` bytes: then there is room, with any fewer there is not. */
  ghost predicate Yields(d: Disk, ids: seq<Bytes>, prune: nat, extra: nat, limits: Limits) {
    && prune <= |ids| && INDEX_RESERVE + BytesOf(d, ids[prune..]) + extra <= limits.protectedBytes
    && |ids| - prune + 1 <= limits.rows
    && forall fewer: nat :: fewer < prune ==>
         INDEX_RESERVE + BytesOf(d, ids[fewer..]) + extra > limits.protectedBytes || |ids| - fewer + 1 > limits.rows
  }

  lemma ShortestPrefixYields(d: Disk, ids: seq<Bytes>, weights: seq<Weight>, prune: nat, extra: nat, limits: Limits)
    requires Exact(d, ids) && Weighed(d, ids, weights) && ShortestPrefix(weights, prune, extra, limits)
    ensures Yields(d, ids, prune, extra, limits)
  {
    hide Exact, Weighed, BytesOf, Sum;
    SameCount(d, ids, weights);
    WeightsAreBytes(d, ids, weights, prune);
    forall fewer: nat | fewer < prune
      ensures
        INDEX_RESERVE + BytesOf(d, ids[fewer..]) + extra > limits.protectedBytes || |ids| - fewer + 1 > limits.rows
    {
      assert !Fits(weights, fewer, extra, limits);
      WeightsAreBytes(d, ids, weights, fewer);
    }
  }

  lemma SameCount(d: Disk, ids: seq<Bytes>, weights: seq<Weight>)
    requires Weighed(d, ids, weights)
    ensures |weights| == |ids|
  {
  }
}
