/**
 * The durable state of the Windows archive: protected records by key, and what a catalog makes of them.
 * Every definition is about one disk, so it can be asked of the disk a crash leaves behind.
 */
module ArchiveDisk {
  import opened Common
  import opened SnapshotCodec
  import opened CatalogCodec

  const INDEX_RESERVE := 70000

  datatype Key = Index | Entry(id: Bytes) | Chunk(id: Bytes, part: nat)
  /** `size` is the length of the protected file, which the cipher chooses. */
  datatype Record = Record(plain: Bytes, size: nat)
  type Disk = map<Key, Record>

  datatype Limits = Limits(rows: nat, protectedBytes: nat)
  {
    predicate Valid() {
      0 < rows <= MAX_ROWS && INDEX_RESERVE < protectedBytes <= 128 * 1024 * 1024
    }
  }

  function Stored(d: Disk, id: Bytes): Result<Snapshot> {
    if Entry(id) in d then Decoding(d[Entry(id)].plain) else Failed
  }

  ghost predicate HasEntry(d: Disk, id: Bytes) {
    Stored(d, id).Ok? && forall part: nat :: part < Stored(d, id).value.chunks ==> Chunk(id, part) in d
  }

  /** The catalog on this disk lists `ids`, and every listed entry is complete. */
  ghost predicate Sound(d: Disk, ids: seq<Bytes>) {
    && Index in d && Parsed(d[Index].plain) == Ok(ids)
    && forall i :: 0 <= i < |ids| ==> HasEntry(d, ids[i])
  }

  /** The record belongs to a catalogued entry or is the catalog itself. */
  ghost predicate Wanted(d: Disk, ids: seq<Bytes>, k: Key) {
    k.Index? || (k.id in ids && Stored(d, k.id).Ok? && (k.Chunk? ==> k.part < Stored(d, k.id).value.chunks))
  }

  /** Sound, and nothing uncatalogued remains. */
  ghost predicate Exact(d: Disk, ids: seq<Bytes>) {
    Sound(d, ids) && forall k :: k in d ==> Wanted(d, ids, k)
  }

  /** Whatever `base` wants is still on `d`, unchanged; `d` may hold other records too. */
  ghost predicate Intact(d: Disk, base: Disk, ids: seq<Bytes>) {
    forall k :: k in base && Wanted(base, ids, k) ==> k in d && d[k] == base[k]
  }

  // ----- accounting

  function ChunkSizes(d: Disk, id: Bytes, count: nat): nat
    requires forall part: nat :: part < count ==> Chunk(id, part) in d
  {
    if count == 0 then 0 else ChunkSizes(d, id, count - 1) + d[Chunk(id, count - 1)].size
  }

  /** The protected size of one entry: its record and all its chunks. */
  ghost function EntrySize(d: Disk, id: Bytes): nat
    requires HasEntry(d, id)
  {
    d[Entry(id)].size + ChunkSizes(d, id, Stored(d, id).value.chunks)
  }

  ghost function TotalSize(d: Disk, ids: seq<Bytes>): nat
    requires forall i :: 0 <= i < |ids| ==> HasEntry(d, ids[i])
  {
    if ids == [] then 0 else TotalSize(d, ids[..|ids| - 1]) + EntrySize(d, ids[|ids| - 1])
  }

  ghost predicate WithinLimits(d: Disk, ids: seq<Bytes>, limits: Limits)
    requires Sound(d, ids)
  {
    |ids| <= limits.rows && d[Index].size + TotalSize(d, ids) <= limits.protectedBytes
  }

  // ----- media

  ghost function Joined(d: Disk, id: Bytes, count: nat): Bytes
    requires forall part: nat :: part < count ==> Chunk(id, part) in d
  {
    if count == 0 then [] else Joined(d, id, count - 1) + d[Chunk(id, count - 1)].plain
  }

  /** Every chunk is full except that the last one ends at `total`. */
  ghost predicate ChunksOf(d: Disk, id: Bytes, count: nat, total: nat) {
    forall part: nat :: part < count ==>
      Chunk(id, part) in d && |d[Chunk(id, part)].plain| == Min(CHUNK_BYTES, total - part * CHUNK_BYTES)
  }

  /** The original that `media` returns, if the chunks and their hash agree with the snapshot. */
  ghost function Media(d: Disk, id: Bytes, hash: Bytes -> Digest): Result<Bytes> {
    if !Stored(d, id).Ok? then Failed
    else
      var s := Stored(d, id).value;
      if s.media == COMPLETE && ChunksOf(d, id, s.chunks, s.mediaBytes) && |Joined(d, id, s.chunks)| == s.mediaBytes
         && hash(Joined(d, id, s.chunks)) == s.digest
      then Ok(Joined(d, id, s.chunks)) else Failed
  }

  /** The chunk is the piece of number `part`, of 65536 bytes or shorter at the end of all. */
  predicate IsPiece(joined: Bytes, part: nat, total: nat, chunk: Bytes) {
    && part * 65536 < total && Min((part + 1) * 65536, total) <= |joined|
    && chunk == joined[part * 65536..Min((part + 1) * 65536, total)]
  }

  /** Chunk `part` of the entry is this piece of the content. */
  predicate PieceAt(d: Disk, id: Bytes, part: nat, content: Bytes) {
    Chunk(id, part) in d && IsPiece(content, part, |content|, d[Chunk(id, part)].plain)
  }

  lemma StillPiece(joined: Bytes, part: nat, total: nat, chunk: Bytes, more: Bytes)
    requires IsPiece(joined, part, total, chunk)
    ensures IsPiece(joined + more, part, total, chunk)
  {
  }

  lemma LastPiece(joined: Bytes, part: nat, total: nat, chunk: Bytes)
    requires |joined| == part * 65536 < total && |chunk| == Min(65536, total - part * 65536)
    ensures IsPiece(joined + chunk, part, total, chunk) && |joined + chunk| == Min((part + 1) * 65536, total)
  {
  }

  lemma ChunkStarts(part: nat, total: nat)
    requires part < ChunkCount(total)
    ensures part * 65536 < total
  {
  }

  lemma {:induction false} PiecesOfJoined(d: Disk, id: Bytes, count: nat, total: nat)
    requires count <= ChunkCount(total) && ChunksOf(d, id, count, total)
    ensures |Joined(d, id, count)| == Min(count * CHUNK_BYTES, total)
    ensures forall part: nat :: part < count ==>
              IsPiece(Joined(d, id, count), part, total, d[Chunk(id, part)].plain)
  {
    if count > 0 {
      var last := count - 1;
      PiecesOfJoined(d, id, last, total);
      ChunkStarts(last, total);
      var before, chunk := Joined(d, id, last), d[Chunk(id, last)].plain;
      assert Joined(d, id, count) == before + chunk;
      hide IsPiece, Joined, ChunkCount;
      LastPiece(before, last, total, chunk);
      forall part: nat | part < last ensures IsPiece(before + chunk, part, total, d[Chunk(id, part)].plain) {
        StillPiece(before, part, total, d[Chunk(id, part)].plain, chunk);
      }
    }
  }

  lemma NextPiece(content: Bytes, part: nat, chunk: Bytes)
    requires IsPiece(content, part, |content|, chunk)
    ensures content[..part * 65536] + chunk == content[..Min((part + 1) * 65536, |content|)]
    ensures |chunk| == Min(65536, |content| - part * 65536)
  {
  }

  lemma {:induction false} JoinedOfPieces(d: Disk, id: Bytes, count: nat, content: Bytes)
    requires count <= ChunkCount(|content|) && forall part: nat :: part < count ==> PieceAt(d, id, part, content)
    ensures ChunksOf(d, id, count, |content|) && Joined(d, id, count) == content[..Min(count * CHUNK_BYTES, |content|)]
  {
    if count > 0 {
      var last := count - 1;
      JoinedOfPieces(d, id, last, content);
      assert PieceAt(d, id, last, content);
      NextPiece(content, last, d[Chunk(id, last)].plain);
      hide IsPiece, ChunkCount;
    }
  }

  /**
   * An original is returned if and only if the entry says it is complete, it has the entry's size and digest, and every
   * chunk of 65536 bytes, the last one shorter, is there with its piece of it.
   */
  lemma MediaExactly(d: Disk, id: Bytes, content: Bytes, hash: Bytes -> Digest)
    ensures Media(d, id, hash) == Ok(content) <==>
            && Stored(d, id).Ok?
            && var s := Stored(d, id).value;
               && s.media == 2 && |content| == s.mediaBytes && hash(content) == s.digest
               && forall part: nat :: part < (|content| + 65535) / 65536 ==> PieceAt(d, id, part, content)
  {
    if Stored(d, id).Ok? && Stored(d, id).value.media == COMPLETE {
      var s := Stored(d, id).value;
      CompleteChunks(d, id);
      AssembledIsJoined(d, id, s.mediaBytes, content);
    }
    hide Stored, ChunksOf, Joined, PieceAt;
  }

  lemma CompleteChunks(d: Disk, id: Bytes)
    requires Stored(d, id).Ok? && Stored(d, id).value.media == COMPLETE
    ensures Stored(d, id).value.chunks == ChunkCount(Stored(d, id).value.mediaBytes)
  {
    EncodeInvertsDecode(d[Entry(id)].plain);
  }

  lemma AssembledIsJoined(d: Disk, id: Bytes, total: nat, content: Bytes)
    ensures ChunksOf(d, id, ChunkCount(total), total) && Joined(d, id, ChunkCount(total)) == content
            && |Joined(d, id, ChunkCount(total))| == total
        <==> |content| == total && forall part: nat :: part < (total + 65535) / 65536 ==> PieceAt(d, id, part, content)
  {
    var count := ChunkCount(total);
    if ChunksOf(d, id, count, total) {
      PiecesOfJoined(d, id, count, total);
    }
    if |content| == total && forall part: nat :: part < count ==> PieceAt(d, id, part, content) {
      JoinedOfPieces(d, id, count, content);
    }
    hide Joined, ChunksOf;
  }

  // ----- an intact disk means the same as its base

  lemma IntactEntry(d: Disk, base: Disk, ids: seq<Bytes>, id: Bytes)
    requires Intact(d, base, ids) && id in ids && HasEntry(base, id)
    ensures HasEntry(d, id) && Stored(d, id) == Stored(base, id)
    ensures EntrySize(d, id) == EntrySize(base, id)
  {
    assert Wanted(base, ids, Entry(id));
    var s := Stored(base, id).value;
    forall part: nat | part < s.chunks
      ensures Chunk(id, part) in d && d[Chunk(id, part)] == base[Chunk(id, part)]
    {
      assert Wanted(base, ids, Chunk(id, part));
    }
    SameChunks(d, base, id, s.chunks);
  }

  lemma {:induction false} SameChunks(d: Disk, base: Disk, id: Bytes, count: nat)
    requires forall part: nat :: part < count ==> Chunk(id, part) in base && Chunk(id, part) in d
    requires forall part: nat :: part < count ==> d[Chunk(id, part)] == base[Chunk(id, part)]
    ensures ChunkSizes(d, id, count) == ChunkSizes(base, id, count)
    ensures Joined(d, id, count) == Joined(base, id, count)
  {
    if count != 0 {
      SameChunks(d, base, id, count - 1);
    }
  }

  lemma IntactMedia(d: Disk, base: Disk, ids: seq<Bytes>, id: Bytes, hash: Bytes -> Digest)
    requires Intact(d, base, ids) && id in ids && HasEntry(base, id)
    ensures Media(d, id, hash) == Media(base, id, hash)
  {
    IntactEntry(d, base, ids, id);
    var s := Stored(base, id).value;
    assert forall part: nat :: part < s.chunks ==> Wanted(base, ids, Chunk(id, part));
    SameChunks(d, base, id, s.chunks);
  }

  lemma IntactSound(d: Disk, base: Disk, ids: seq<Bytes>)
    requires Sound(base, ids) && Intact(d, base, ids)
    ensures Sound(d, ids)
    ensures forall k :: Wanted(d, ids, k) <==> Wanted(base, ids, k)
    ensures TotalSize(d, ids) == TotalSize(base, ids) && d[Index] == base[Index]
  {
    hide Stored, HasEntry, EntrySize;
    assert Wanted(base, ids, Index);
    forall i | 0 <= i < |ids| ensures HasEntry(d, ids[i]) && Stored(d, ids[i]) == Stored(base, ids[i]) {
      IntactEntry(d, base, ids, ids[i]);
    }
    SameTotal(d, base, ids, ids);
  }

  lemma {:induction false} SameTotal(d: Disk, base: Disk, ids: seq<Bytes>, part: seq<Bytes>)
    requires Intact(d, base, ids)
    requires forall i :: 0 <= i < |part| ==> part[i] in ids && HasEntry(base, part[i]) && HasEntry(d, part[i])
    ensures TotalSize(d, part) == TotalSize(base, part)
  {
    hide HasEntry, EntrySize, Intact;
    if part != [] {
      SameTotal(d, base, ids, part[..|part| - 1]);
      IntactEntry(d, base, ids, part[|part| - 1]);
    }
  }

  /** What recovery leaves: the wanted records and nothing else. */
  ghost function Restricted(d: Disk, ids: seq<Bytes>): Disk {
    map k | k in d && Wanted(d, ids, k) :: d[k]
  }

  /** A disk on which an exact base is intact recovers to exactly that base. */
  lemma RestrictedIsBase(d: Disk, base: Disk, ids: seq<Bytes>)
    requires Exact(base, ids) && Intact(d, base, ids)
    ensures Restricted(d, ids) == base
  {
    IntactSound(d, base, ids);
    hide Sound;
    forall k | k in d && Wanted(d, ids, k) ensures k in base {
      WantedIsThere(base, ids, k);
    }
  }

  lemma WantedIsThere(d: Disk, ids: seq<Bytes>, k: Key)
    requires Sound(d, ids) && Wanted(d, ids, k)
    ensures k in d
  {
    if !k.Index? {
      var i :| 0 <= i < |ids| && ids[i] == k.id;
      assert HasEntry(d, ids[i]);
    }
  }

  lemma RestrictedIsExact(d: Disk, ids: seq<Bytes>)
    requires Sound(d, ids)
    ensures Exact(Restricted(d, ids), ids) && Intact(Restricted(d, ids), d, ids)
    ensures TotalSize(Restricted(d, ids), ids) == TotalSize(d, ids)
    ensures Index in Restricted(d, ids) && Restricted(d, ids)[Index] == d[Index]
  {
    var kept := Restricted(d, ids);
    assert Intact(kept, d, ids);
    IntactSound(kept, d, ids);
  }

  // ----- what recovery makes of any disk

  /** The ids recovery would adopt; `Failed` where it refuses without deleting anything. */
  ghost function Recoverable(d: Disk): Result<seq<Bytes>> {
    if Index !in d then (if d == map[] then Ok([]) else Failed)
    else
      match Parsed(d[Index].plain)
      case Failed => Failed
      case Ok(ids) => if Sound(d, ids) then Ok(ids) else Failed
  }

  /** `d` recovers to the same ids as `before`, with the very same records. */
  ghost predicate Harmless(d: Disk, before: Disk) {
    Recoverable(d) == Recoverable(before) && (Recoverable(before).Ok? ==> Intact(d, before, Recoverable(before).value))
  }

  lemma IntactIsHarmless(d: Disk, before: Disk, ids: seq<Bytes>)
    requires Sound(before, ids) && Intact(d, before, ids)
    ensures Harmless(d, before) && Recoverable(before) == Ok(ids)
  {
    IntactSound(d, before, ids);
  }

  lemma HarmlessTwice(d: Disk, middle: Disk, before: Disk)
    requires Harmless(d, middle) && Harmless(middle, before)
    ensures Harmless(d, before)
  {
    if Recoverable(before).Ok? {
      var ids := Recoverable(before).value;
      forall k | k in before && Wanted(before, ids, k) ensures k in d && d[k] == before[k] {
        assert k in middle && middle[k] == before[k];
        assert Wanted(middle, ids, k) by {
          if !k.Index? { assert Wanted(before, ids, Entry(k.id)); EntryOfWanted(before, ids, k); }
        }
      }
    }
  }

  ghost predicate Ready(d: Disk, ids: seq<Bytes>, limits: Limits) { Sound(d, ids) && WithinLimits(d, ids, limits) }

  /** A recovery of this disk that meets no fault succeeds; an empty disk gets a catalog of no entries. */
  ghost predicate Recovers(d: Disk, limits: Limits) {
    Recoverable(d).Ok? && (Index in d ==> Ready(d, Recoverable(d).value, limits))
  }

  lemma IntactIsReady(d: Disk, base: Disk, ids: seq<Bytes>, limits: Limits)
    requires Sound(base, ids) && Intact(d, base, ids)
    ensures Ready(d, ids, limits) <==> Ready(base, ids, limits)
  {
    IntactSound(d, base, ids);
    hide Sound, Intact;
  }

  /** What is harmless recovers as before, provided a catalog made anew keeps its reserve. */
  lemma HarmlessRecovers(d: Disk, before: Disk, limits: Limits)
    requires Harmless(d, before) && Recovers(before, limits) && limits.Valid()
    requires Index in d ==> d[Index].size <= INDEX_RESERVE
    ensures Recovers(d, limits)
  {
    if Index in before {
      IntactIsReady(d, before, Recoverable(before).value, limits);
    }
    hide Parsed, HasEntry, Intact;
  }

  /** The listed entries fit beside the reserve for the catalog. */
  ghost predicate KeepsQuota(d: Disk, ids: seq<Bytes>, limits: Limits)
    requires Sound(d, ids)
  {
    |ids| <= limits.rows && INDEX_RESERVE + TotalSize(d, ids) <= limits.protectedBytes
  }

  /** The entry record of a wanted record is on the disk too. */
  lemma EntryOfWanted(d: Disk, ids: seq<Bytes>, k: Key)
    requires Wanted(d, ids, k) && !k.Index?
    ensures Entry(k.id) in d && Wanted(d, ids, Entry(k.id))
  {
  }

  // ----- weights cached by the open store

  datatype Weight = Weight(bytes: nat, chunks: nat)

  function Sum(weights: seq<Weight>): nat {
    if weights == [] then 0 else Sum(weights[..|weights| - 1]) + weights[|weights| - 1].bytes
  }

  ghost predicate Weighed(d: Disk, ids: seq<Bytes>, weights: seq<Weight>) {
    && |weights| == |ids|
    && forall i :: 0 <= i < |ids| ==>
         HasEntry(d, ids[i]) && weights[i] == Weight(EntrySize(d, ids[i]), Stored(d, ids[i]).value.chunks)
  }

  lemma WeighedMore(d: Disk, ids: seq<Bytes>, weights: seq<Weight>, id: Bytes, weight: Weight)
    requires Weighed(d, ids, weights) && HasEntry(d, id)
    requires weight == Weight(EntrySize(d, id), Stored(d, id).value.chunks)
    ensures Weighed(d, ids + [id], weights + [weight])
    ensures forall k :: Wanted(d, ids + [id], k) <==>
              Wanted(d, ids, k) || k == Entry(id) || (k.Chunk? && k.id == id && k.part < weight.chunks)
  {
  }

  lemma RestrictedIsWeighed(d: Disk, ids: seq<Bytes>, weights: seq<Weight>)
    requires Sound(d, ids) && Weighed(d, ids, weights)
    ensures Weighed(Restricted(d, ids), ids, weights)
  {
    RestrictedIsExact(d, ids);
    hide Restricted;
    forall i | 0 <= i < |ids|
      ensures HasEntry(Restricted(d, ids), ids[i]) && EntrySize(Restricted(d, ids), ids[i]) == EntrySize(d, ids[i])
    {
      IntactEntry(Restricted(d, ids), d, ids, ids[i]);
    }
  }

  lemma {:induction false} WeighedTotal(d: Disk, ids: seq<Bytes>, weights: seq<Weight>)
    requires Weighed(d, ids, weights)
    ensures TotalSize(d, ids) == Sum(weights)
  {
    hide HasEntry, EntrySize, Stored;
    if ids != [] {
      WeighedTotal(d, ids[..|ids| - 1], weights[..|ids| - 1]);
    }
  }

  lemma {:induction false} SumFromFront(weights: seq<Weight>)
    requires weights != []
    ensures Sum(weights) == weights[0].bytes + Sum(weights[1..])
  {
    var n := |weights| - 1;
    if n > 0 {
      SumFromFront(weights[..n]);
      assert weights[..n][1..] == weights[1..][..n - 1];
    }
  }

  lemma SumMore(weights: seq<Weight>, last: Weight)
    ensures Sum(weights + [last]) == Sum(weights) + last.bytes
  {
    assert (weights + [last])[..|weights|] == weights;
  }

  /** Room for a new entry of `extra` protected bytes once the oldest `prune` entries are gone. */
  ghost predicate Fits(weights: seq<Weight>, prune: nat, extra: nat, limits: Limits)
    requires prune <= |weights|
  {
    INDEX_RESERVE + Sum(weights[prune..]) + extra <= limits.protectedBytes && |weights| + 1 - prune <= limits.rows
  }

  ghost predicate ShortestPrefix(weights: seq<Weight>, prune: nat, extra: nat, limits: Limits) {
    && prune <= |weights| && Fits(weights, prune, extra, limits)
    && forall shorter: nat :: shorter < prune ==> !Fits(weights, shorter, extra, limits)
  }

  lemma NextPruned(weights: seq<Weight>, prune: nat)
    requires prune < |weights|
    ensures Sum(weights[prune..]) == weights[prune].bytes + Sum(weights[prune + 1..])
  {
    SumFromFront(weights[prune..]);
    assert weights[prune..][1..] == weights[prune + 1..];
  }

  // ----- staging and committing one entry

  ghost predicate Unused(d: Disk, id: Bytes) {
    forall k :: k in d && !k.Index? ==> k.id != id
  }

  /** `d` is `base` plus records of the entry `id`. */
  ghost predicate Extends(d: Disk, base: Disk, id: Bytes) {
    && (forall k :: k in base ==> k in d && d[k] == base[k])
    && (forall k :: k in d && k !in base ==> !k.Index? && k.id == id)
  }

  /** The catalog write: the disk that lists `kept` and the staged entry. */
  lemma CommitIsSound(d: Disk, staged: Disk, base: Disk, ids: seq<Bytes>, prune: nat, id: Bytes)
    requires Exact(base, ids) && Unused(base, id) && Extends(staged, base, id) && HasEntry(staged, id)
    requires prune <= |ids| && IsId(id)
    requires Index in d && d == staged[Index := d[Index]]
    requires Parsed(d[Index].plain) == Ok(ids[prune..] + [id])
    ensures Sound(d, ids[prune..] + [id])
    ensures forall i :: prune <= i < |ids| ==>
                && HasEntry(d, ids[i]) && EntrySize(d, ids[i]) == EntrySize(base, ids[i])
                && Stored(d, ids[i]) == Stored(base, ids[i])
    ensures HasEntry(d, id) && EntrySize(d, id) == EntrySize(staged, id) && Stored(d, id) == Stored(staged, id)
  {
    hide Parsed, Decoding;
    assert Intact(staged, base, ids);
    forall other: Bytes | HasEntry(staged, other)
      ensures HasEntry(d, other) && EntrySize(d, other) == EntrySize(staged, other)
      ensures Stored(d, other) == Stored(staged, other)
    {
      SameChunks(d, staged, other, Stored(staged, other).value.chunks);
    }
    forall i | 0 <= i < |ids|
      ensures HasEntry(staged, ids[i]) && EntrySize(staged, ids[i]) == EntrySize(base, ids[i])
      ensures Stored(staged, ids[i]) == Stored(base, ids[i])
    {
      IntactEntry(staged, base, ids, ids[i]);
    }
  }

  // ----- staging media, chunk by chunk

  /** After `count` chunks of an original of `total` bytes have been written under `id`, holding `content`. */
  ghost predicate Staged(d: Disk, base: Disk, id: Bytes, count: nat, total: nat, content: Bytes) {
    && Extends(d, base, id) && ChunksOf(d, id, count, total) && Joined(d, id, count) == content
    && forall k :: k in d && k !in base ==> k.Chunk? && k.part < count
  }

  lemma StagedMore(d: Disk, base: Disk, id: Bytes, count: nat, total: nat, content: Bytes, record: Record)
    requires Staged(d, base, id, count, total, content) && Unused(base, id)
    requires |record.plain| == Min(CHUNK_BYTES, total - count * CHUNK_BYTES)
    ensures Staged(d[Chunk(id, count) := record], base, id, count + 1, total, content + record.plain)
  {
    JoinedElsewhere(d, Chunk(id, count), record, id, count);
  }

  lemma {:induction false} JoinedElsewhere(d: Disk, k: Key, record: Record, id: Bytes, count: nat)
    requires forall part: nat :: part < count ==> Chunk(id, part) in d && Chunk(id, part) != k
    ensures Joined(d[k := record], id, count) == Joined(d, id, count)
    ensures ChunkSizes(d[k := record], id, count) == ChunkSizes(d, id, count)
  {
    if count != 0 {
      JoinedElsewhere(d, k, record, id, count - 1);
    }
  }

  // ----- the catalog write

  /** The kept ids and the new one always form a catalog, and one that reads back as written. */
  lemma NextCatalog(base: Disk, ids: seq<Bytes>, prune: nat, id: Bytes)
    requires Exact(base, ids) && Unused(base, id) && IsId(id)
    requires prune <= |ids| && |ids| + 1 - prune <= MAX_ROWS
    ensures Cataloged(ids[prune..] + [id]).Ok?
    ensures Parsed(Cataloged(ids[prune..] + [id]).value) == Ok(ids[prune..] + [id])
  {
    CatalogInvertsParse(base[Index].plain);
    assert forall i :: 0 <= i < |ids| ==> HasEntry(base, ids[i]);
    hide Parsed, IsId, Decoding;
    ParseInvertsCatalog(ids[prune..] + [id]);
  }

  lemma CommitIsWeighed(d: Disk, staged: Disk, base: Disk, ids: seq<Bytes>, weights: seq<Weight>, prune: nat, id: Bytes,
      weight: Weight)
    requires Exact(base, ids) && Unused(base, id) && Extends(staged, base, id) && HasEntry(staged, id)
    requires prune <= |ids| && IsId(id)
    requires Index in d && d == staged[Index := d[Index]]
    requires Parsed(d[Index].plain) == Ok(ids[prune..] + [id])
    requires Weighed(base, ids, weights) && weight == Weight(EntrySize(staged, id), Stored(staged, id).value.chunks)
    ensures Sound(d, ids[prune..] + [id]) && Weighed(d, ids[prune..] + [id], weights[prune..] + [weight])
    ensures EntrySize(d, id) == EntrySize(staged, id) && Stored(d, id) == Stored(staged, id)
  {
    CommitIsSound(d, staged, base, ids, prune, id);
    hide HasEntry, EntrySize, Stored;
  }

  // ----- what an add leaves

  /** A record of an entry that was pruned. */
  ghost predicate Removable(k: Key, removed: seq<Bytes>, counts: seq<Weight>, from: nat)
    requires |removed| == |counts|
  {
    !k.Index? && exists i :: from <= i < |removed| && k.id == removed[i] && (k.Chunk? ==> k.part < counts[i].chunks)
  }

  /** After the commit every record is wanted by the new catalog or belongs to a pruned entry. */
  lemma CommitLeaves(d: Disk, staged: Disk, base: Disk, ids: seq<Bytes>, weights: seq<Weight>, prune: nat, id: Bytes)
    requires Exact(base, ids) && Weighed(base, ids, weights) && Unused(base, id) && Extends(staged, base, id)
    requires prune <= |ids| && HasEntry(staged, id)
    requires forall k: Key :: k in staged && k.Chunk? && k.id == id ==> k.part < Stored(staged, id).value.chunks
    requires Index in d && d == staged[Index := d[Index]]
    requires forall i :: prune <= i < |ids| ==> Stored(d, ids[i]) == Stored(base, ids[i])
    requires Stored(d, id) == Stored(staged, id)
    ensures forall k :: k in d ==> Wanted(d, ids[prune..] + [id], k) || Removable(k, ids[..prune], weights[..prune], 0)
  {
    KeptAreThere(ids, prune, id);
    hide Decoding, Sound;
    forall k | k in d && !Wanted(d, ids[prune..] + [id], k) ensures Removable(k, ids[..prune], weights[..prune], 0) {
      assert !k.Index? && k.id != id && k in base && Wanted(base, ids, k);
      var i :| 0 <= i < |ids| && ids[i] == k.id;
      assert i < prune;
      assert ids[..prune][i] == k.id && weights[..prune][i] == weights[i];
    }
  }

  lemma KeptAreThere(ids: seq<Bytes>, prune: nat, id: Bytes)
    requires prune <= |ids|
    ensures forall i :: prune <= i < |ids| ==> ids[i] in ids[prune..] + [id]
  {
    forall i | prune <= i < |ids| ensures ids[i] in ids[prune..] + [id] {
      assert (ids[prune..] + [id])[i - prune] == ids[i];
    }
  }

  lemma RemovedAreGone(base: Disk, ids: seq<Bytes>, prune: nat, id: Bytes)
    requires Exact(base, ids) && Unused(base, id) && prune <= |ids|
    ensures forall i :: 0 <= i < prune ==> ids[i] !in ids[prune..] + [id]
  {
    CatalogInvertsParse(base[Index].plain);
    hide Parsed, Decoding;
    assert forall i :: 0 <= i < |ids| ==> HasEntry(base, ids[i]);
  }

  /** Two disks on which the same records are intact agree with each other. */
  lemma IntactSwap(d: Disk, base: Disk, later: Disk, ids: seq<Bytes>)
    requires Sound(base, ids) && Intact(d, base, ids) && Intact(later, base, ids)
    ensures Intact(d, later, ids)
  {
    IntactSound(later, base, ids);
    forall k | k in later && Wanted(later, ids, k) ensures k in d && d[k] == later[k] {
      WantedIsThere(base, ids, k);
    }
  }

  lemma IntactWeighed(d: Disk, base: Disk, ids: seq<Bytes>, weights: seq<Weight>)
    requires Sound(base, ids) && Intact(d, base, ids) && Weighed(base, ids, weights)
    ensures Sound(d, ids) && Weighed(d, ids, weights)
  {
    IntactSound(d, base, ids);
    hide Intact, HasEntry, EntrySize, Stored, Sound;
    forall i | 0 <= i < |ids|
      ensures HasEntry(d, ids[i]) && Stored(d, ids[i]) == Stored(base, ids[i])
      ensures EntrySize(d, ids[i]) == EntrySize(base, ids[i])
    {
      IntactEntry(d, base, ids, ids[i]);
    }
  }

  lemma CommitDone(d: Disk, staged: Disk, base: Disk, ids: seq<Bytes>, weights: seq<Weight>, prune: nat, id: Bytes)
    requires Exact(base, ids) && Weighed(base, ids, weights) && Unused(base, id) && Extends(staged, base, id)
    requires prune <= |ids| == |weights| && HasEntry(staged, id) && IsId(id)
    requires forall k: Key :: k in staged && k !in base ==>
                 k == Entry(id) || (k.Chunk? && k.part < Stored(staged, id).value.chunks)
    requires Index in d && d == staged[Index := d[Index]]
    requires Parsed(d[Index].plain) == Ok(ids[prune..] + [id])
    ensures forall k :: k in d ==> Wanted(d, ids[prune..] + [id], k) || Removable(k, ids[..prune], weights[..prune], 0)
    ensures forall i :: 0 <= i < prune ==> ids[i] !in ids[prune..] + [id]
  {
    CommitIsSound(d, staged, base, ids, prune, id);
    RemovedAreGone(base, ids, prune, id);
    hide Parsed, Decoding, Exact, Weighed, Stored, HasEntry, EntrySize;
    CommitLeaves(d, staged, base, ids, weights, prune, id);
  }

  lemma EntrySizeIs(d: Disk, id: Bytes, chunks: nat)
    requires HasEntry(d, id) && Stored(d, id).value.chunks == chunks
    ensures EntrySize(d, id) == d[Entry(id)].size + ChunkSizes(d, id, chunks)
  {
  }

  lemma PruneFits(weights: seq<Weight>, prune: nat, extra: nat, limits: Limits)
    requires ShortestPrefix(weights, prune, extra, limits) && limits.Valid()
    ensures prune <= |weights| && |weights| + 1 - prune <= limits.rows <= MAX_ROWS
    ensures INDEX_RESERVE + Sum(weights[prune..]) + extra <= limits.protectedBytes
  {
  }

  // ----- removing pruned entries, one record at a time

  /** Not yet erased when entry `i` is being removed and `part` of its chunks are gone. */
  ghost predicate Pending(k: Key, removed: seq<Bytes>, counts: seq<Weight>, i: nat, part: nat)
    requires |removed| == |counts| && i <= |removed|
  {
    || Removable(k, removed, counts, i + 1)
    || (i < |removed| && (k == Entry(removed[i])
         || (k.Chunk? && k.id == removed[i] && part <= k.part < counts[i].chunks)))
  }

  ghost predicate Sweeping(d: Disk, base: Disk, ids: seq<Bytes>, removed: seq<Bytes>, counts: seq<Weight>, i: nat,
      part: nat)
    requires |removed| == |counts| && i <= |removed|
  {
    Intact(d, base, ids) && forall k :: k in d ==> Wanted(base, ids, k) || Pending(k, removed, counts, i, part)
  }

  lemma SweepBegins(d: Disk, ids: seq<Bytes>, removed: seq<Bytes>, counts: seq<Weight>)
    requires |removed| == |counts|
    requires forall k :: k in d ==> Wanted(d, ids, k) || Removable(k, removed, counts, 0)
    ensures Sweeping(d, d, ids, removed, counts, 0, 0)
  {
  }

  lemma SweptChunk(d: Disk, before: Disk, base: Disk, ids: seq<Bytes>, removed: seq<Bytes>, counts: seq<Weight>, i: nat,
      part: nat)
    requires |removed| == |counts| && i < |removed| && removed[i] !in ids && part < counts[i].chunks
    requires Sweeping(before, base, ids, removed, counts, i, part)
    requires d == before || d == before - {Chunk(removed[i], part)}
    ensures Intact(d, base, ids)
    ensures d == before - {Chunk(removed[i], part)} ==> Sweeping(d, base, ids, removed, counts, i, part + 1)
  {
  }

  lemma SweptEntry(d: Disk, before: Disk, base: Disk, ids: seq<Bytes>, removed: seq<Bytes>, counts: seq<Weight>, i: nat)
    requires |removed| == |counts| && i < |removed| && removed[i] !in ids
    requires Sweeping(before, base, ids, removed, counts, i, counts[i].chunks)
    requires d == before || d == before - {Entry(removed[i])}
    ensures Intact(d, base, ids)
    ensures d == before - {Entry(removed[i])} ==> Sweeping(d, base, ids, removed, counts, i + 1, 0)
  {
  }

  lemma SweepEnds(d: Disk, base: Disk, ids: seq<Bytes>, removed: seq<Bytes>, counts: seq<Weight>)
    requires |removed| == |counts| && Sound(base, ids) && Sweeping(d, base, ids, removed, counts, |removed|, 0)
    ensures Exact(d, ids)
  {
    IntactSound(d, base, ids);
  }

  lemma MediaOfStaged(d: Disk, staged: Disk, base: Disk, id: Bytes, content: Bytes, hash: Bytes -> Digest)
    requires Stored(d, id).Ok? && Staged(staged, base, id, Stored(d, id).value.chunks, |content|, content)
    requires forall k :: k in staged && !k.Index? && k.id == id ==> k in d && d[k] == staged[k]
    requires Stored(d, id).value.media == COMPLETE && Stored(d, id).value.mediaBytes == |content|
    requires Stored(d, id).value.digest == hash(content)
    ensures Media(d, id, hash) == Ok(content)
  {
    hide Decoding;
    SameChunks(d, staged, id, Stored(d, id).value.chunks);
  }

  /** A disk after a commit wants exactly what the disk at the commit wanted. */
  lemma KeptSwap(d: Disk, committed: Disk, id: Bytes, ids: seq<Bytes>, hash: Bytes -> Digest)
    requires Sound(committed, ids) && Intact(d, committed, ids) && id in ids
    ensures Stored(d, id) == Stored(committed, id) && HasEntry(committed, id) && HasEntry(d, id)
    ensures EntrySize(d, id) == EntrySize(committed, id)
    ensures Media(d, id, hash) == Media(committed, id, hash)
  {
    var i :| 0 <= i < |ids| && ids[i] == id;
    IntactEntry(d, committed, ids, ids[i]);
    IntactMedia(d, committed, ids, id, hash);
  }
}
