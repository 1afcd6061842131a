/**
 * The Windows archive store: entries are staged under a fresh id, published by one catalog write, pruned by
 * quota and repaired by `Recover`.
 */
module ArchiveStore {
  import opened Common
  import opened SnapshotCodec
  import opened CatalogCodec
  import opened ArchiveDisk
  import opened ArchiveBytes
  import opened ArchiveVault
  import opened ByteSource

  datatype Added = Added(id: Bytes, cleanupPending: bool)

  class Store {
    const vault: Vault
    const limits: Limits
    /** The digest of a whole original. */
    const hash: Bytes -> Digest
    var ids: seq<Bytes>
    var weights: seq<Weight>
    var entryBytes: nat
    var catalog: Bytes
    var cleanupPending: bool

    /** The cached fields describe the disk exactly. */
    ghost predicate Current()
      reads this, vault
    {
      Exact(vault.disk, ids) && Weighed(vault.disk, ids, weights)
    }

    /**
     * Between calls.  The cached fields are trusted only while the catalog on disk is the expected one and no
     * cleanup is outstanding; `catalog == []` marks a store that has not recovered yet.
     */
    ghost predicate Valid()
      reads this, vault
    {
      && vault.Valid() && limits.Valid()
      && |weights| == |ids| && entryBytes == Sum(weights)
      && (catalog != [] ==> Parsed(catalog) == Ok(ids))
      && (catalog != [] && !cleanupPending && Index in vault.disk && vault.disk[Index].plain == catalog ==> Current())
    }

    constructor (vault: Vault, limits: Limits, hash: Bytes -> Digest)
      requires vault.Valid() && limits.Valid()
      ensures Valid() && this.vault == vault && this.limits == limits && this.hash == hash && catalog == []
      ensures !cleanupPending
    {
      this.vault, this.limits, this.hash := vault, limits, hash;
      ids, weights, entryBytes, catalog, cleanupPending := [], [], 0, [], false;
    }

    /** The checks every operation starts with. */
    method Check() returns (ok: bool)
      requires Valid()
      modifies vault`faults
      ensures Valid() && vault.faults >= old(vault.faults)
      ensures ok ==>
                && Index in vault.disk && vault.disk[Index].plain == catalog && !cleanupPending
                && vault.faults == old(vault.faults)
      ensures !ok ==>
                || vault.faults > old(vault.faults) || Index !in vault.disk || vault.disk[Index].plain != catalog
                || cleanupPending
    {
      var raw := vault.Read(Index);
      ok := raw.Ok? && raw.value.Some? && raw.value.value == catalog && !cleanupPending;
    }

    method StoredEntry(id: Bytes) returns (r: Result<Snapshot>)
      modifies vault`faults
      ensures vault.faults >= old(vault.faults)
      ensures match r
              case Ok(s) => vault.faults == old(vault.faults) && Stored(vault.disk, id) == Ok(s)
              case Failed => vault.faults > old(vault.faults) || Stored(vault.disk, id).Failed?
    {
      var raw :- vault.Read(Entry(id));
      if raw.None? {
        return Failed;
      }
      r := Decode(raw.value);
    }

    method EntryBytes(id: Bytes, chunks: nat) returns (r: Result<nat>)
      modifies vault`faults
      ensures vault.faults >= old(vault.faults)
      ensures match r
              case Ok(bytes) =>
                && vault.faults == old(vault.faults) && Entry(id) in vault.disk
                && (forall part: nat :: part < chunks ==> Chunk(id, part) in vault.disk)
                && bytes == vault.disk[Entry(id)].size + ChunkSizes(vault.disk, id, chunks)
              case Failed =>
                || vault.faults > old(vault.faults) || Entry(id) !in vault.disk
                || exists part: nat :: part < chunks && Chunk(id, part) !in vault.disk
      // For a whole entry that is everything kept under its id.
      ensures r.Ok? && Own(vault.disk, id) && Stored(vault.disk, id).value.chunks == chunks ==>
                r.value == BytesOf(vault.disk, [id])
    {
      var result :- vault.ProtectedBytes(Entry(id));
      for part := 0 to chunks
        invariant vault.faults == old(vault.faults)
        invariant forall p: nat :: p < part ==> Chunk(id, p) in vault.disk
        invariant result == vault.disk[Entry(id)].size + ChunkSizes(vault.disk, id, part)
      {
        var size :- vault.ProtectedBytes(Chunk(id, part));
        result := result + size;
      }
      if Own(vault.disk, id) && Stored(vault.disk, id).value.chunks == chunks {
        EntrySizeIsBytes(vault.disk, id);
      }
      hide Own, BytesOf, Stored, HasEntry;
      return Ok(result);
    }

    /** Verifies every catalog reference before anything is deleted. */
    method Survey(ids: seq<Bytes>) returns (r: Result<(seq<Weight>, set<Key>)>)
      modifies vault`faults
      ensures vault.faults >= old(vault.faults)
      ensures match r
              case Ok((weights, wanted)) =>
                && vault.faults == old(vault.faults) && Weighed(vault.disk, ids, weights)
                && forall k :: k in wanted <==> Wanted(vault.disk, ids, k)
              case Failed =>
                  vault.faults > old(vault.faults) || exists i :: 0 <= i < |ids| && !HasEntry(vault.disk, ids[i])
    {
      var weights: seq<Weight>, wanted: set<Key> := [], {Index};
      for i := 0 to |ids|
        invariant vault.faults == old(vault.faults)
        invariant Weighed(vault.disk, ids[..i], weights)
        invariant forall k :: k in wanted <==> Wanted(vault.disk, ids[..i], k)
      {
        var id := ids[i];
        var s := StoredEntry(id);
        if s.Failed? {
          return Failed;
        }
        var bytes := EntryBytes(id, s.value.chunks);
        if bytes.Failed? {
          return Failed;
        }
        WeighedMore(vault.disk, ids[..i], weights, id, Weight(bytes.value, s.value.chunks));
        wanted := wanted + {Entry(id)} + set part: nat | part < s.value.chunks :: Chunk(id, part);
        weights := weights + [Weight(bytes.value, s.value.chunks)];
        hide *;
        assert ids[..i + 1] == ids[..i] + [id];
      }
      assert ids[..|ids|] == ids;
      return Ok((weights, wanted));
    }

    /** Ciphertext bytes in use, or a failed check. */
    method ProtectedBytes() returns (r: Result<nat>)
      requires Valid()
      modifies vault`faults
      ensures Valid() && vault.faults >= old(vault.faults)
      ensures match r
              case Ok(bytes) =>
                && Index in vault.disk && bytes == vault.disk[Index].size + entryBytes
                && (catalog != [] ==> bytes == DiskBytes(vault.disk))
              case Failed =>
                  vault.faults > old(vault.faults) || Index !in vault.disk || vault.disk[Index].plain != catalog
                  || cleanupPending
    {
      var ok := Check();
      if !ok {
        return Failed;
      }
      var index :- vault.ProtectedBytes(Index);
      if catalog != [] {
        CachedIsAllBytes();
      }
      return Ok(index + entryBytes);
    }

    lemma CachedIsAllBytes()
      requires Current() && entryBytes == Sum(weights)
      ensures Index in vault.disk && DiskBytes(vault.disk) == vault.disk[Index].size + entryBytes
    {
      WeighedTotal(vault.disk, ids, weights);
      ExactIsAllBytes(vault.disk, ids);
      hide Exact, Weighed, DiskBytes, BytesOf;
    }

    /** Reads the catalog; creates an empty one only where nothing at all is stored. */
    method LoadCatalog() returns (r: Result<Bytes>)
      requires vault.Valid()
      modifies vault
      ensures vault.Valid() && vault.faults >= old(vault.faults)
      ensures OnlyHarmless(old(vault.history), vault.history, old(vault.disk))
      ensures Harmless(vault.disk, old(vault.disk))
      ensures vault.disk == old(vault.disk) || (old(vault.disk) == map[] && Exact(vault.disk, []))
      ensures r.Ok? ==> Index in vault.disk && vault.disk[Index].plain == r.value && vault.faults == old(vault.faults)
      ensures r.Failed? ==> vault.faults > old(vault.faults) || Recoverable(vault.disk).Failed?
    {
      var records :- vault.ArchiveRecords();
      var found :- vault.Read(Index);
      if found.None? {
        if records != [] {
          assert records[0] in vault.disk;
          return Failed;
        }
        assert vault.disk == map[];
        var empty := Catalog([]);
        EmptyCatalog();
        var written := vault.Write(Index, empty.value);
        assert Sound(vault.disk, []) || vault.disk == map[];
        if !written {
          return Failed;
        }
        found :- vault.Read(Index);
      }
      return Ok(found.value);
    }

    /** Reads and verifies the catalog and everything it refers to. */
    method Examine() returns (r: Result<(seq<Bytes>, seq<Weight>, set<Key>, Bytes)>)
      requires vault.Valid()
      modifies vault
      ensures vault.Valid() && vault.faults >= old(vault.faults)
      ensures OnlyHarmless(old(vault.history), vault.history, old(vault.disk))
      ensures Harmless(vault.disk, old(vault.disk))
      ensures vault.disk == old(vault.disk) || (old(vault.disk) == map[] && Exact(vault.disk, []))
      ensures r.Failed? ==> vault.faults > old(vault.faults) || Recoverable(vault.disk).Failed?
      ensures r.Ok? ==> var (newIds, newWeights, wanted, newCatalog) := r.value;
                && vault.faults == old(vault.faults) && Recoverable(vault.disk) == Ok(newIds)
                && Sound(vault.disk, newIds) && Weighed(vault.disk, newIds, newWeights)
                && vault.disk[Index].plain == newCatalog && newCatalog != []
                && forall k :: k in wanted <==> Wanted(vault.disk, newIds, k)
    {
      hide Wanted, Harmless, Intact, HasEntry;
      var loaded :- LoadCatalog();
      var parsed :- Parse(loaded);
      var survey :- Survey(parsed);
      return Ok((parsed, survey.0, survey.1, loaded));
    }

    /** Erases every record that is not wanted. */
    method EraseOrphans(records: seq<Key>, wanted: set<Key>, ghost ids: seq<Bytes>) returns (ok: bool)
      requires vault.Valid() && Sound(vault.disk, ids)
      requires forall k :: k in wanted <==> Wanted(vault.disk, ids, k)
      requires forall k :: k in vault.disk ==> k in records || k in wanted
      modifies vault
      ensures vault.Valid() && vault.faults >= old(vault.faults)
      ensures Harmless(vault.disk, old(vault.disk))
      ensures OnlyHarmless(old(vault.history), vault.history, old(vault.disk))
      ensures ok ==> vault.faults == old(vault.faults) && vault.disk == Restricted(old(vault.disk), ids)
      ensures !ok ==> vault.faults > old(vault.faults)
    {
      IntactIsHarmless(vault.disk, vault.disk, ids);
      NothingYet(vault.history, vault.disk);
      hide Sound, Wanted, Harmless, OnlyHarmless;
      for i := 0 to |records|
        invariant vault.Valid() && vault.faults == old(vault.faults)
        invariant forall k :: k in vault.disk ==> k in old(vault.disk) && vault.disk[k] == old(vault.disk)[k]
        invariant forall k :: k in old(vault.disk) && k in wanted ==> k in vault.disk
        invariant forall j :: 0 <= j < i && records[j] in vault.disk ==> records[j] in wanted
        invariant Harmless(vault.disk, old(vault.disk))
        invariant OnlyHarmless(old(vault.history), vault.history, old(vault.disk))
      {
        if records[i] !in wanted {
          ghost var sofar := vault.history;
          ok := vault.Erase(records[i]);
          IntactIsHarmless(vault.disk, old(vault.disk), ids);
          OneMore(old(vault.history), sofar, vault.disk, old(vault.disk));
          if !ok {
            return;
          }
        }
      }
      return true;
    }

    /**
     * Rebuilds the cache from the disk after a restart or a failed cleanup, and removes what no catalogued
     * entry owns.  It never repairs an invalid catalog.
     */
    method Recover() returns (ok: bool)
      requires Valid()
      modifies this, vault
      ensures Valid() && vault.faults >= old(vault.faults)
      // Stopped anywhere, it leaves a disk that recovers to the same ids with the same records.
      ensures OnlyHarmless(old(vault.history), vault.history, old(vault.disk))
      // What it cannot recover it leaves alone.
      ensures Recoverable(old(vault.disk)).Failed? ==> !ok && vault.disk == old(vault.disk)
      ensures ok ==> !cleanupPending && catalog != [] && Index in vault.disk && vault.disk[Index].plain == catalog
      ensures ok ==> Recoverable(old(vault.disk)) == Ok(ids) && Current() && WithinLimits(vault.disk, ids, limits)
      ensures ok && Index in old(vault.disk) ==> vault.disk == Restricted(old(vault.disk), ids)
      // Without a vault fault it fails only on an unrecoverable disk or an exceeded quota.
      ensures vault.faults == old(vault.faults) && Recoverable(old(vault.disk)).Ok? ==>
                && Recoverable(old(vault.disk)) == Ok(ids) && Current()
                && (ok <==> WithinLimits(vault.disk, ids, limits))
      // The limits are on every byte the disk now has.
      ensures ok ==> |ids| <= limits.rows && DiskBytes(vault.disk) <= limits.protectedBytes
      ensures vault.faults == old(vault.faults) && Recoverable(old(vault.disk)).Ok? ==>
                (ok <==> |ids| <= limits.rows && DiskBytes(vault.disk) <= limits.protectedBytes)
      // Whether it succeeds can be told from the disk it finds.
      ensures vault.faults == old(vault.faults) && Index in old(vault.disk) ==>
                (ok <==> Recovers(old(vault.disk), limits))
    {
      hide Sound, Exact, Weighed, Wanted, Intact, Harmless, OnlyHarmless, Restricted, Recoverable, Parsed, WithinLimits;
      hide DiskBytes;
      ghost var start := vault.disk;
      var examined := Examine();
      StillValid(start, vault.disk);
      if examined.Failed? {
        return false;
      }
      var (newIds, newWeights, wanted, newCatalog) := examined.value;
      var records := vault.ArchiveRecords();
      if records.Failed? {
        return false;
      }
      cleanupPending := true;
      ghost var base, middle := vault.disk, vault.history;
      var erased := EraseOrphans(records.value, wanted, newIds);
      StillHarmless(old(vault.history), middle, vault.history, base, start);
      if !erased {
        return false;
      }
      var cleaned := vault.CleanupArchiveTemporary();
      if !cleaned {
        return false;
      }
      RestrictedIsExact(base, newIds);
      RestrictedIsWeighed(base, newIds, newWeights);
      IntactIsReady(vault.disk, base, newIds, limits);
      ok := Adopt(newIds, newWeights, newCatalog);
    }

    /** Takes over what the survey found and applies the limits to it. */
    method Adopt(newIds: seq<Bytes>, newWeights: seq<Weight>, newCatalog: Bytes) returns (ok: bool)
      requires vault.Valid() && limits.Valid()
      requires Exact(vault.disk, newIds) && Weighed(vault.disk, newIds, newWeights)
      requires vault.disk[Index].plain == newCatalog && newCatalog != []
      modifies this, vault`faults
      ensures Valid() && !cleanupPending && ids == newIds && catalog == newCatalog && Current()
      ensures vault.faults >= old(vault.faults)
      ensures ok ==> WithinLimits(vault.disk, ids, limits)
      ensures vault.faults == old(vault.faults) ==> (ok <==> WithinLimits(vault.disk, ids, limits))
      ensures WithinLimits(vault.disk, ids, limits) <==>
                |ids| <= limits.rows && DiskBytes(vault.disk) <= limits.protectedBytes
    {
      ids, weights, entryBytes, catalog := newIds, newWeights, Sum(newWeights), newCatalog;
      cleanupPending := false;
      WeighedTotal(vault.disk, ids, weights);
      CachedIsAllBytes();
      if |ids| > limits.rows {
        return false;
      }
      var bytes := ProtectedBytes();
      return bytes.Ok? && bytes.value <= limits.protectedBytes;
    }

    /** Fills one chunk from a reader that may deliver it in pieces. */
    method ReadChunk(reader: Reader, count: nat) returns (r: Result<Bytes>)
      modifies reader
      ensures reader.faults >= old(reader.faults)
      ensures match r
              case Ok(chunk) =>
                  |chunk| == count && old(reader.source) == chunk + reader.source && reader.faults == old(reader.faults)
              case Failed => reader.faults > old(reader.faults) || |old(reader.source)| < count
    {
      var filled := [];
      while |filled| != count
        invariant |filled| <= count && reader.faults == old(reader.faults)
        invariant old(reader.source) == filled + reader.source
        decreases count - |filled|
      {
        var got :- reader.Read(count - |filled|);
        if got == [] {
          return Failed;
        }
        Regroup(filled, got, reader.source);
        filled := filled + got;
      }
      return Ok(filled);
    }

    /** Writes the original under `id` in chunks; `staged` lists every key that may have been written. */
    method StageMedia(id: Bytes, mediaBytes: nat, reader: Reader) returns (r: Result<(nat, Digest)>, staged: seq<Key>)
      requires vault.Valid() && Unused(vault.disk, id)
      modifies vault, reader
      ensures vault.Valid() && vault.faults >= old(vault.faults) && reader.faults >= old(reader.faults)
      ensures Extends(vault.disk, old(vault.disk), id)
      ensures OnlyExtended(old(vault.history), vault.history, old(vault.disk), id)
      ensures forall k :: k in vault.disk && k !in old(vault.disk) ==> k in staged
      ensures forall k :: k in staged ==> k.Chunk? && k.id == id
      ensures match r
              case Ok((chunks, digest)) =>
                && vault.faults == old(vault.faults) && reader.faults == old(reader.faults)
                && |old(reader.source)| == mediaBytes && chunks == ChunkCount(mediaBytes)
                && digest == hash(old(reader.source))
                && Staged(vault.disk, old(vault.disk), id, chunks, mediaBytes, old(reader.source))
              case Failed =>
                  vault.faults > old(vault.faults) || reader.faults > old(reader.faults)
                  || |old(reader.source)| != mediaBytes
    {
      ghost var base := vault.disk;
      var chunks: nat, remaining: nat := 0, mediaBytes;
      var hashed: Bytes := []; // what the digest has consumed
      staged := [];
      NotExtendedYet(vault.history, base, id);
      StagingBegins(base, id, mediaBytes);
      hide *;
      while remaining != 0
        invariant vault.Valid() && vault.faults == old(vault.faults) && reader.faults == old(reader.faults)
        invariant OnlyExtended(old(vault.history), vault.history, base, id)
        invariant Extends(vault.disk, base, id) && Staged(vault.disk, base, id, chunks, mediaBytes, hashed)
        invariant Progress(mediaBytes, remaining, chunks, |hashed|)
        invariant old(reader.source) == hashed + reader.source
        invariant forall k :: k in vault.disk && k !in base ==> k in staged
        invariant forall k :: k in staged ==> k.Chunk? && k.id == id
      {
        var count := if remaining <= CHUNK_BYTES then remaining else CHUNK_BYTES;
        NextStep(mediaBytes, remaining, chunks, |hashed|, count);
        var chunk := ReadChunk(reader, count);
        if chunk.Failed? {
          r := Failed;
          return;
        }
        Regroup(hashed, chunk.value, reader.source);
        staged := staged + [Chunk(id, chunks)];
        ghost var sofar, before := vault.history, vault.disk;
        var written := vault.Write(Chunk(id, chunks), chunk.value);
        ExtendedByOne(old(vault.history), sofar, vault.disk, before, base, id, Chunk(id, chunks));
        if !written {
          r := Failed;
          return;
        }
        StagedMore(before, base, id, chunks, mediaBytes, hashed, vault.disk[Chunk(id, chunks)]);
        hashed := hashed + chunk.value;
        remaining := remaining - count;
        chunks := chunks + 1;
      }
      AllStaged(mediaBytes, chunks, |hashed|);
      var extra := reader.Read(1);
      if extra.Failed? || extra.value != [] {
        r := Failed;
        return;
      }
      assert hashed == old(reader.source);
      r := Ok((chunks, hash(hashed)));
    }

    /** Re-reads a cached entry; on a disk the cache describes, only a vault fault can make this fail. */
    method MatchesCache(i: nat) returns (ok: bool)
      requires Weighed(vault.disk, ids, weights) && i < |ids|
      modifies vault`faults
      ensures vault.faults >= old(vault.faults)
      ensures ok <==> vault.faults == old(vault.faults)
    {
      assert HasEntry(vault.disk, ids[i]);
      var previous := StoredEntry(ids[i]);
      if previous.Failed? || previous.value.chunks != weights[i].chunks {
        return false;
      }
      var size := EntryBytes(ids[i], previous.value.chunks);
      ok := size.Ok? && size.value == weights[i].bytes;
    }

    /** The shortest oldest-first prefix whose removal makes room, each removed entry verified first. */
    method ChoosePrune(newBytes: nat) returns (r: Result<nat>)
      requires limits.Valid() && |weights| == |ids| && entryBytes == Sum(weights) && Weighed(vault.disk, ids, weights)
      modifies vault`faults
      ensures vault.faults >= old(vault.faults)
      ensures match r
              case Ok(prune) => vault.faults == old(vault.faults) && ShortestPrefix(weights, prune, newBytes, limits)
              case Failed => vault.faults > old(vault.faults) || INDEX_RESERVE + newBytes > limits.protectedBytes
    {
      hide Weighed;
      var bytes, prune := INDEX_RESERVE + entryBytes + newBytes, 0;
      assert weights[0..] == weights && Sum(weights[|weights|..]) == 0;
      while (bytes > limits.protectedBytes || |ids| + 1 - prune > limits.rows) && prune < |ids|
        invariant prune <= |ids| && vault.faults == old(vault.faults)
        invariant bytes == INDEX_RESERVE + Sum(weights[prune..]) + newBytes
        invariant forall shorter: nat :: shorter < prune ==> !Fits(weights, shorter, newBytes, limits)
      {
        var matches := MatchesCache(prune);
        if !matches {
          return Failed;
        }
        NextPruned(weights, prune);
        bytes := bytes - weights[prune].bytes;
        prune := prune + 1;
      }
      if bytes > limits.protectedBytes {
        return Failed;
      }
      return Ok(prune);
    }

    /** Removes staged records after a failure before the commit; a record it cannot remove defers cleanup. */
    method Rollback(staged: seq<Key>, ghost base: Disk, ghost id: Bytes)
      requires vault.Valid() && Unused(base, id) && Extends(vault.disk, base, id)
      requires forall k :: k in vault.disk && k !in base ==> k in staged
      requires forall k :: k in staged ==> !k.Index? && k.id == id
      modifies vault, `cleanupPending
      ensures vault.Valid() && vault.faults >= old(vault.faults)
      ensures OnlyExtended(old(vault.history), vault.history, base, id) && Extends(vault.disk, base, id)
      ensures cleanupPending ==> old(cleanupPending) || vault.faults > old(vault.faults)
      ensures !cleanupPending ==> !old(cleanupPending) && vault.disk == base
    {
      NotExtendedYet(vault.history, base, id);
      for i := 0 to |staged|
        invariant vault.Valid() && vault.faults >= old(vault.faults)
        invariant Extends(vault.disk, base, id) && OnlyExtended(old(vault.history), vault.history, base, id)
        invariant cleanupPending ==> old(cleanupPending) || vault.faults > old(vault.faults)
        invariant old(cleanupPending) ==> cleanupPending
        invariant forall k :: k in vault.disk && k !in base ==> k in staged
        invariant !cleanupPending ==> forall j :: 0 <= j < i ==> staged[j] !in vault.disk
      {
        var ok := vault.Erase(staged[i]);
        if !ok {
          cleanupPending := true;
        }
      }
    }

    /** Writes the entry record of a snapshot whose chunks are already staged. */
    method WriteEntry(final: Snapshot, id: Bytes, ghost base: Disk) returns (ok: bool)
      requires vault.Valid() && Unused(base, id) && Extends(vault.disk, base, id)
      requires forall part: nat :: part < final.chunks ==> Chunk(id, part) in vault.disk
      requires Entry(id) !in vault.disk
      modifies vault
      ensures vault.Valid() && vault.faults >= old(vault.faults)
      ensures Extends(vault.disk, base, id) && OnlyExtended(old(vault.history), vault.history, base, id)
      ensures forall k :: k in vault.disk ==> k in old(vault.disk) || k == Entry(id)
      ensures ok ==>
                Stored(vault.disk, id) == Ok(final) && HasEntry(vault.disk, id) && vault.faults == old(vault.faults)
      ensures ok ==> Entry(id) in vault.disk && vault.disk == old(vault.disk)[Entry(id) := vault.disk[Entry(id)]]
      ensures ok ==> SnapshotCodec.Valid(final) && |vault.history| > |old(vault.history)|
      ensures !ok ==> vault.faults > old(vault.faults) || !SnapshotCodec.Valid(final)
    {
      NotExtendedYet(vault.history, base, id);
      var payload := Encode(final);
      if payload.Failed? {
        return false;
      }
      DecodeInvertsEncode(final);
      EncodingSize(final);
      hide Encoding, Decoding, SnapshotCodec.Valid, OnlyExtended, Extends, Unused;
      ghost var sofar, before := vault.history, vault.disk;
      ok := vault.Write(Entry(id), payload.value);
      ExtendedByOne(old(vault.history), sofar, vault.disk, before, base, id, Entry(id));
    }

    /** Replaces the catalog by the kept ids and the new one: the only step that publishes anything. */
    method CommitCatalog(prune: nat, id: Bytes, newWeight: Weight, ghost base: Disk) returns (ok: bool)
      requires vault.Valid() && prune <= |ids| == |weights| && IsId(id)
      requires Exact(base, ids) && Weighed(base, ids, weights) && Unused(base, id)
      requires Extends(vault.disk, base, id) && HasEntry(vault.disk, id)
      requires newWeight == Weight(EntrySize(vault.disk, id), Stored(vault.disk, id).value.chunks)
      requires |ids| + 1 - prune <= MAX_ROWS
      modifies this, vault
      ensures vault.Valid() && vault.faults >= old(vault.faults)
      ensures cleanupPending == old(cleanupPending)
      ensures vault.history == old(vault.history) + [vault.disk]
      ensures !ok ==> vault.faults > old(vault.faults) && vault.disk == old(vault.disk)
      ensures !ok ==>
                ids == old(ids) && weights == old(weights) && entryBytes == old(entryBytes) && catalog == old(catalog)
      ensures ok ==> vault.faults == old(vault.faults) && ids == old(ids)[prune..] + [id] && entryBytes == Sum(weights)
      ensures ok ==> entryBytes == Sum(old(weights)[prune..]) + newWeight.bytes
      ensures ok ==> Index in vault.disk && vault.disk[Index].plain == catalog && catalog != []
      ensures ok ==> vault.disk == old(vault.disk)[Index := vault.disk[Index]]
      ensures ok ==> Parsed(catalog) == Ok(ids) && Sound(vault.disk, ids) && Weighed(vault.disk, ids, weights)
      ensures ok ==>
                EntrySize(vault.disk, id) == newWeight.bytes && Stored(vault.disk, id) == Stored(old(vault.disk), id)
    {
      hide *;
      var chosen, chosenWeights := ids[prune..] + [id], weights[prune..] + [newWeight];
      NextCatalog(base, ids, prune, id);
      SumMore(weights[prune..], newWeight);
      ghost var staged := vault.disk;
      var nextCatalog := Catalog(chosen);
      ok := vault.Write(Index, nextCatalog.value);
      if ok {
        CommitIsWeighed(vault.disk, staged, base, ids, weights, prune, id, newWeight);
        CatalogIsNotEmpty(chosen);
        ids, weights, entryBytes, catalog := chosen, chosenWeights, Sum(weights[prune..]) + newWeight.bytes,
            nextCatalog.value;
      } else {
        CatalogFitsPayload(chosen);
      }
    }

    /** Stages the entry record, chooses what to prune and commits; a failure leaves the cache as it was. */
    method Publish(final: Snapshot, id: Bytes, ghost base: Disk) returns (r: Result<nat>, ghost weight: nat)
      requires vault.Valid() && limits.Valid() && entryBytes == Sum(weights)
      requires Exact(base, ids) && Weighed(base, ids, weights) && Unused(base, id) && IsId(id)
      requires Extends(vault.disk, base, id) && Entry(id) !in vault.disk
      requires forall part: nat :: part < final.chunks ==> Chunk(id, part) in vault.disk
      requires forall k :: k in vault.disk && k !in base ==> k.Chunk? && k.part < final.chunks
      modifies this, vault
      ensures vault.Valid() && vault.faults >= old(vault.faults) && cleanupPending == old(cleanupPending)
      ensures r.Failed? ==>
                && ids == old(ids) && weights == old(weights) && entryBytes == old(entryBytes)
                && catalog == old(catalog)
                && Extends(vault.disk, base, id) && OnlyExtended(old(vault.history), vault.history, base, id)
                && (forall k :: k in vault.disk ==> k in old(vault.disk) || k == Entry(id))
                && (vault.faults > old(vault.faults)
                     || Refused(old(vault.history), vault.history, id, final, weight, limits))
      ensures r.Ok? ==>
                && ShortestPrefix(old(weights), r.value, weight, limits) && ids == old(ids)[r.value..] + [id]
                && |ids| <= limits.rows && INDEX_RESERVE + entryBytes <= limits.protectedBytes
                && Committed(old(ids), old(weights), r.value, id) && vault.faults == old(vault.faults)
                && EntrySize(vault.disk, id) == weight && Stored(vault.disk, id) == Ok(final)
                && SnapshotCodec.Valid(final)
                && (forall k :: k in old(vault.disk) && !k.Index? ==>
                     k in vault.disk && vault.disk[k] == old(vault.disk)[k])
                && OnlyExtendedThen(old(vault.history), vault.history, base, id)
    {
      hide *;
      StagedIsWeighed(vault.disk, base, id, ids, weights);
      ghost var start := vault.history;
      var written := WriteEntry(final, id, base);
      ghost var staged, first := vault.disk, vault.history;
      if !written {
        Unencodable(start, vault.history, id, final, 0, limits);
        return Failed, 0;
      }
      StagedIsWeighed(staged, base, id, ids, weights);
      WasTried(start, id, final);
      WholeEntry(staged, base, id, final.chunks);
      var newBytes := EntryBytes(id, final.chunks);
      if newBytes.Failed? {
        return Failed, 0;
      }
      EntrySizeIs(staged, id, final.chunks);
      weight := newBytes.value;
      var prune := ChoosePrune(newBytes.value);
      if prune.Failed? {
        TooLarge(start, vault.history, id, final, weight, limits);
        return Failed, weight;
      }
      PruneFits(weights, prune.value, weight, limits);
      var committed := CommitCatalog(prune.value, id, Weight(newBytes.value, final.chunks), base);
      StagedThenCommitted(start, first, staged, vault.disk, base, id);
      if !committed {
        return Failed, weight;
      }
      CommitDone(vault.disk, staged, base, old(ids), old(weights), prune.value, id);
      ItIsCommitted(old(ids), old(weights), prune.value, id);
      return Ok(prune.value), weight;
    }

    lemma WholeEntry(d: Disk, base: Disk, id: Bytes, chunks: nat)
      requires Unused(base, id) && HasEntry(d, id) && Stored(d, id).Ok? && Stored(d, id).value.chunks == chunks
      requires forall k :: k in d && k !in base && k.Chunk? ==> k.part < chunks
      ensures EntrySize(d, id) == BytesOf(d, [id])
    {
      hide *;
      OwnOfStaged(d, base, id, chunks);
      EntrySizeIsBytes(d, id);
    }

    lemma WasTried(earlier: seq<Disk>, id: Bytes, final: Snapshot)
      requires vault.Valid() && |earlier| < |vault.history| && HasEntry(vault.disk, id)
      requires Stored(vault.disk, id) == Ok(final)
      ensures Tried(earlier, vault.history, id, final, BytesOf(vault.disk, [id]))
    {
      hide Stored, HasEntry, BytesOf;
      assert vault.history[|vault.history| - 1] == vault.disk;
    }

    lemma ItIsCommitted(oldIds: seq<Bytes>, oldWeights: seq<Weight>, prune: nat, id: Bytes)
      requires prune <= |oldIds| == |oldWeights| && ids == oldIds[prune..] + [id]
      requires Index in vault.disk && vault.disk[Index].plain == catalog && catalog != []
      requires Sound(vault.disk, ids) && Weighed(vault.disk, ids, weights) && entryBytes == Sum(weights)
      requires forall k :: k in vault.disk ==>
                   Wanted(vault.disk, ids, k) || Removable(k, oldIds[..prune], oldWeights[..prune], 0)
      requires forall i :: 0 <= i < prune ==> oldIds[i] !in ids
      ensures Committed(oldIds, oldWeights, prune, id)
    {
    }

    /** The state between the commit and the removal of pruned entries. */
    ghost predicate Committed(oldIds: seq<Bytes>, oldWeights: seq<Weight>, prune: nat, id: Bytes)
      reads this, vault
    {
      && prune <= |oldIds| == |oldWeights| && ids == oldIds[prune..] + [id]
      && Index in vault.disk && vault.disk[Index].plain == catalog && catalog != []
      && Sound(vault.disk, ids) && Weighed(vault.disk, ids, weights) && entryBytes == Sum(weights)
      && (forall k :: k in vault.disk ==>
           Wanted(vault.disk, ids, k) || Removable(k, oldIds[..prune], oldWeights[..prune], 0))
      && (forall i :: 0 <= i < prune ==> oldIds[i] !in ids)
    }

    /** Removes the records of pruned entries; stops at the first fault. */
    method EraseRemoved(removed: seq<Bytes>, removedWeights: seq<Weight>) returns (ok: bool)
      requires vault.Valid() && |removed| == |removedWeights| && Sound(vault.disk, ids)
      requires forall i :: 0 <= i < |removed| ==> removed[i] !in ids
      requires forall k :: k in vault.disk ==> Wanted(vault.disk, ids, k) || Removable(k, removed, removedWeights, 0)
      modifies vault
      ensures vault.Valid() && vault.faults >= old(vault.faults)
      ensures Intact(vault.disk, old(vault.disk), ids)
      ensures OnlyIntact(old(vault.history), vault.history, old(vault.disk), ids)
      ensures ok ==> vault.faults == old(vault.faults) && Exact(vault.disk, ids)
      ensures !ok ==> vault.faults > old(vault.faults)
    {
      ghost var base := vault.disk;
      SweepBegins(base, ids, removed, removedWeights);
      NothingTouched(vault.history, base, ids);
      hide *;
      for i := 0 to |removed|
        invariant vault.Valid() && vault.faults == old(vault.faults)
        invariant OnlyIntact(old(vault.history), vault.history, base, ids)
        invariant Sweeping(vault.disk, base, ids, removed, removedWeights, i, 0)
      {
        for part := 0 to removedWeights[i].chunks
          invariant vault.Valid() && vault.faults == old(vault.faults)
          invariant OnlyIntact(old(vault.history), vault.history, base, ids)
          invariant Sweeping(vault.disk, base, ids, removed, removedWeights, i, part)
        {
          ghost var before, sofar := vault.disk, vault.history;
          ok := vault.Erase(Chunk(removed[i], part));
          SweptChunk(vault.disk, before, base, ids, removed, removedWeights, i, part);
          StillIntact(old(vault.history), sofar, vault.disk, base, ids);
          if !ok {
            return;
          }
        }
        ghost var before, sofar := vault.disk, vault.history;
        ok := vault.Erase(Entry(removed[i]));
        SweptEntry(vault.disk, before, base, ids, removed, removedWeights, i);
        StillIntact(old(vault.history), sofar, vault.disk, base, ids);
        if !ok {
          return;
        }
      }
      SweepEnds(vault.disk, base, ids, removed, removedWeights);
      SweepIsIntact(vault.disk, base, ids, removed, removedWeights);
      return true;
    }

    /** Publishes a staged entry, then removes what it replaced; undoes the staging when it cannot publish. */
    method AddStaged(final: Snapshot, id: Bytes, staged: seq<Key>, ghost base: Disk)
        returns (r: Result<Added>, ghost weight: nat)
      requires vault.Valid() && limits.Valid() && entryBytes == Sum(weights) && !cleanupPending && catalog != []
      requires Parsed(catalog) == Ok(ids)
      requires Exact(base, ids) && Weighed(base, ids, weights) && Unused(base, id) && IsId(id)
      requires Extends(vault.disk, base, id) && Entry(id) !in vault.disk
      requires forall part: nat :: part < final.chunks ==> Chunk(id, part) in vault.disk
      requires forall k :: k in vault.disk && k !in base ==> k.Chunk? && k.part < final.chunks
      requires forall k :: k in vault.disk && k !in base ==> k in staged
      requires forall k :: k in staged ==> k.Chunk? && k.id == id
      modifies this, vault
      ensures Valid() && catalog != [] && vault.faults >= old(vault.faults)
      ensures r.Failed? ==>
                && ids == old(ids) && weights == old(weights) && catalog == old(catalog)
                && Extends(vault.disk, base, id) && OnlyExtended(old(vault.history), vault.history, base, id)
                && (!cleanupPending ==> vault.disk == base)
                && (vault.faults > old(vault.faults)
                     || Refused(old(vault.history), vault.history, id, final, weight, limits))
      ensures r.Ok? ==>
                exists prune: nat ::
                  Yields(base, old(ids), prune, weight, limits) && ids == old(ids)[prune..] + [id]
      ensures r.Ok? ==>
                && r.value == Added(id, cleanupPending) && Published(id, weight) && Stored(vault.disk, id) == Ok(final)
                && SnapshotCodec.Valid(final) && INDEX_RESERVE + weight <= limits.protectedBytes
                && KeepsStaged(old(vault.disk), vault.disk, ids)
                && OldThenNew(old(vault.history), vault.history, base, id, vault.disk, ids)
      ensures r.Ok? && !cleanupPending ==> Holds(weight, id)
      ensures vault.faults == old(vault.faults) ==> !cleanupPending
    {
      hide *;
      ghost var start := vault.history;
      ghost var before := vault.disk;
      var oldIds, oldWeights := ids, weights;
      var published;
      published, weight := Publish(final, id, base);
      ghost var middle := vault.history;
      if published.Failed? {
        CoversStaged(before, vault.disk, base, id, staged);
        Rollback(staged + [Entry(id)], base, id);
        ExtendedTwice(start, middle, vault.history, base, id);
        StillRefused(start, start, middle, vault.history, base, id, final, weight, limits);
        RolledBackIsValid(base);
        return Failed, weight;
      }
      var prune := published.value;
      ghost var committed := vault.disk;
      ReadyToErase(oldIds, oldWeights, prune, id);
      PruneFits(oldWeights, prune, weight, limits);
      var erased := EraseRemoved(oldIds[..prune], oldWeights[..prune]);
      cleanupPending := !erased;
      KeptBySweep(before, committed, vault.disk, ids, oldIds[..prune], oldWeights[..prune]);
      HistoryOfAdd(start, middle, vault.history, committed, vault.disk, base, id, ids);
      KeptSwap(vault.disk, committed, id, ids, hash);
      FinishedAdd(committed, id);
      ShortestPrefixYields(base, oldIds, oldWeights, prune, weight, limits);
      if erased {
        PublishedHolds(id, weight);
      }
      return Ok(Added(id, cleanupPending)), weight;
    }

    lemma RolledBackIsValid(base: Disk)
      requires vault.Valid() && limits.Valid() && entryBytes == Sum(weights)
      requires catalog != [] && Parsed(catalog) == Ok(ids) && Exact(base, ids) && Weighed(base, ids, weights)
      requires !cleanupPending ==> vault.disk == base
      ensures Valid()
    {
    }

    lemma ReadyToErase(oldIds: seq<Bytes>, oldWeights: seq<Weight>, prune: nat, id: Bytes)
      requires vault.Valid() && Committed(oldIds, oldWeights, prune, id)
      ensures prune <= |oldIds| == |oldWeights| && id in ids && |weights| == |ids| && entryBytes == Sum(weights)
      ensures Index in vault.disk && vault.disk[Index].plain == catalog && catalog != []
      ensures Sound(vault.disk, ids) && Weighed(vault.disk, ids, weights)
      ensures forall k :: k in vault.disk ==>
                  Wanted(vault.disk, ids, k) || Removable(k, oldIds[..prune], oldWeights[..prune], 0)
      ensures forall i :: 0 <= i < prune ==> oldIds[..prune][i] !in ids
      ensures vault.history != [] && vault.history[|vault.history| - 1] == vault.disk
    {
    }

    lemma FinishedAdd(committed: Disk, id: Bytes)
      requires vault.Valid() && limits.Valid() && entryBytes == Sum(weights) && |weights| == |ids|
      requires Index in committed && committed[Index].plain == catalog && catalog != []
      requires Sound(committed, ids) && Weighed(committed, ids, weights) && Intact(vault.disk, committed, ids)
      requires !cleanupPending ==> Exact(vault.disk, ids)
      requires HasEntry(vault.disk, id) && |ids| <= limits.rows && INDEX_RESERVE + entryBytes <= limits.protectedBytes
      ensures Valid() && Published(id, EntrySize(vault.disk, id))
    {
      IntactWeighed(vault.disk, committed, ids, weights);
      WeighedTotal(vault.disk, ids, weights);
      IntactSound(vault.disk, committed, ids);
      hide Sound, Intact, Weighed, Exact;
    }

    /** The published state: the catalog on disk is the cached one and lists complete, weighed entries. */
    ghost predicate Published(id: Bytes, weight: nat)
      reads this, vault
    {
      && Index in vault.disk && vault.disk[Index].plain == catalog
      && Sound(vault.disk, ids) && Weighed(vault.disk, ids, weights)
      && HasEntry(vault.disk, id) && EntrySize(vault.disk, id) == weight
      && KeepsQuota(vault.disk, ids, limits)
    }

    /** All the bytes of the disk leave room for the catalog's reserve, and `weight` of them are the new entry's. */
    ghost predicate Holds(weight: nat, id: Bytes)
      reads this, vault`disk
    {
      && Index in vault.disk && BytesOf(vault.disk, [id]) == weight
      && DiskBytes(vault.disk) == vault.disk[Index].size + BytesOf(vault.disk, ids)
      && INDEX_RESERVE + BytesOf(vault.disk, ids) <= limits.protectedBytes && |ids| <= limits.rows
    }

    lemma PublishedHolds(id: Bytes, weight: nat)
      requires Exact(vault.disk, ids) && Published(id, weight) && id in ids
      ensures Holds(weight, id)
    {
      var i :| 0 <= i < |ids| && ids[i] == id;
      OwnOfExact(vault.disk, ids);
      EntrySizeIsBytes(vault.disk, ids[i]);
      ExactIsAllBytes(vault.disk, ids);
      hide Exact, Sound, Weighed, DiskBytes, BytesOf, EntrySize, Stored;
    }

    lemma TrustedIsCurrent()
      requires Valid() && Trusted() && catalog != []
      ensures Current() && Exact(vault.disk, ids) && Weighed(vault.disk, ids, weights)
      ensures vault.Valid() && limits.Valid() && entryBytes == Sum(weights) && Parsed(catalog) == Ok(ids)
      ensures !cleanupPending
    {
    }

    /** Archives a snapshot together with the original the reader delivers. */
    method AddMedia(snapshot: Snapshot, mediaBytes: nat, reader: Reader, id: Bytes)
        returns (r: Result<Added>, ghost weight: nat)
      requires Valid() && Trusted() && catalog != [] && IsId(id) && Unused(vault.disk, id)
      requires SnapshotCodec.Valid(snapshot) && 0 < mediaBytes <= MAX_MEDIA_BYTES
      modifies this, vault, reader
      ensures Valid() && catalog != [] && vault.faults >= old(vault.faults) && reader.faults >= old(reader.faults)
      ensures r.Failed? ==>
                && ids == old(ids) && weights == old(weights) && catalog == old(catalog)
                && OnlyExtended(old(vault.history), vault.history, old(vault.disk), id)
                && Extends(vault.disk, old(vault.disk), id) && (!cleanupPending ==> vault.disk == old(vault.disk))
                && (|| vault.faults > old(vault.faults) || reader.faults > old(reader.faults)
                    || !Supplied(mediaBytes, Some(old(reader.source)), hash)
                    || Refused(old(vault.history), vault.history, id, Final(snapshot, Some(old(reader.source)), hash),
                         weight, limits))
      ensures r.Ok? ==>
                exists prune: nat ::
                  Yields(old(vault.disk), old(ids), prune, weight, limits) && ids == old(ids)[prune..] + [id]
      ensures r.Ok? ==>
                && r.value == Added(id, cleanupPending) && Published(id, weight)
                && Supplied(mediaBytes, Some(old(reader.source)), hash)
                && Stored(vault.disk, id) == Ok(Final(snapshot, Some(old(reader.source)), hash))
                && Media(vault.disk, id, hash) == Ok(old(reader.source))
                && INDEX_RESERVE + weight <= limits.protectedBytes
                && KeepsStaged(old(vault.disk), vault.disk, ids)
                && OldThenNew(old(vault.history), vault.history, old(vault.disk), id, vault.disk, ids)
      ensures r.Ok? && !cleanupPending ==> Holds(weight, id)
      ensures vault.faults == old(vault.faults) ==> !cleanupPending
    {
      TrustedIsCurrent();
      hide *;
      ghost var base, start := vault.disk, vault.history;
      var media, staged := StageMedia(id, mediaBytes, reader);
      ghost var before, middle := vault.disk, vault.history;
      if media.Failed? {
        AnythingIsKey(staged, id);
        Rollback(staged, base, id);
        ExtendedTwice(start, middle, vault.history, base, id);
        RolledBackIsValid(base);
        MayBeUnsupplied(mediaBytes, old(reader.source), hash);
        return Failed, 0;
      }
      var (chunks, digest) := media.value;
      var final := snapshot.(media := COMPLETE, mediaBytes := mediaBytes, chunks := chunks, digest := digest);
      StagedIsReady(before, base, id, chunks, mediaBytes, old(reader.source));
      FinalSnapshot(snapshot, mediaBytes, old(reader.source), hash);
      assert final == Final(snapshot, Some(old(reader.source)), hash);
      r, weight := AddStaged(final, id, staged, base);
      if r.Ok? {
        MediaOfAdded(vault.disk, before, base, id, ids, final, old(reader.source), hash);
        HistoryOfMedia(start, middle, vault.history, base, id, vault.disk, ids);
        KeptTwice(base, before, vault.disk, id, ids);
      } else {
        ExtendedTwice(start, middle, vault.history, base, id);
        StillRefused(start, middle, vault.history, vault.history, base, id, final, weight, limits);
      }
    }

    /**
     * Archives one snapshot, with its original when a reader is given, under the fresh id `id`.
     * `weight` is the protected size of the new entry.
     */
    method Add(snapshot: Snapshot, mediaBytes: nat, reader: Reader?, id: Bytes)
        returns (r: Result<Added>, ghost weight: nat)
      requires Valid() && catalog != [] && IsId(id) && Unused(vault.disk, id)
      modifies this, vault, if reader == null then {} else {reader}
      ensures Valid() && catalog != [] && vault.faults >= old(vault.faults)
      // A refusal leaves the archive as it was, up to staged records a fault kept it from removing.
      ensures r.Failed? ==>
                && ids == old(ids) && weights == old(weights) && catalog == old(catalog)
                && OnlyExtended(old(vault.history), vault.history, old(vault.disk), id)
                && Extends(vault.disk, old(vault.disk), id) && (!cleanupPending ==> vault.disk == old(vault.disk))
      // It succeeds only on an acceptable request to an undamaged store.
      ensures r.Ok? ==>
                && old(Trusted()) && Requested(snapshot, mediaBytes, reader != null)
                && Supplied(mediaBytes, old(Source(reader)), hash)
      // The oldest entries give way, no more of them than needed, and the new id comes last.
      ensures r.Ok? ==>
                exists prune: nat ::
                  Yields(old(vault.disk), old(ids), prune, weight, limits) && ids == old(ids)[prune..] + [id]
      ensures r.Ok? ==>
                && r.value == Added(id, cleanupPending) && Published(id, weight)
                && Stored(vault.disk, id) == Ok(Final(snapshot, old(Source(reader)), hash))
                && (reader != null ==> Media(vault.disk, id, hash) == Ok(old(reader.source)))
                && KeepsStaged(old(vault.disk), vault.disk, ids)
      // Every byte on the disk is the catalog's or a listed entry's, and within the quota.
      ensures r.Ok? && !cleanupPending ==> Holds(weight, id)
      // Stopped at any point, it leaves everything of the old catalog or everything of the new one.
      ensures r.Ok? ==> OldThenNew(old(vault.history), vault.history, old(vault.disk), id, vault.disk, ids)
      // Without a fault, an acceptable request is refused exactly when the whole new entry was staged and alone does
      // not fit.
      ensures vault.faults == old(vault.faults) && (reader != null ==> reader.faults == old(reader.faults)) ==>
                && (r.Failed? <==> || !old(Trusted()) || !Requested(snapshot, mediaBytes, reader != null)
                                   || !Supplied(mediaBytes, old(Source(reader)), hash)
                                   || TooBig(old(vault.history), vault.history, id,
                                        Final(snapshot, old(Source(reader)), hash), weight, limits))
                && (old(Trusted()) ==> !cleanupPending)
    {
      NotExtendedYet(vault.history, vault.disk, id);
      hide *;
      var ok := Check();
      TrustedMeans();
      RequestedIsValid(snapshot, mediaBytes, reader != null);
      if !ok || !Requested(snapshot, mediaBytes, reader != null) {
        return Failed, 0;
      }
      SourceOf(reader);
      FinalIsValid(snapshot, mediaBytes, Source(reader), hash);
      ghost var start := vault.history;
      if reader != null {
        r, weight := AddMedia(snapshot, mediaBytes, reader, id);
      } else {
        TrustedIsCurrent();
        NothingStaged(vault.disk, id, snapshot, mediaBytes, hash);
        r, weight := AddStaged(snapshot, id, [], vault.disk);
      }
      RefusedExactly(start, vault.history, id, Final(snapshot, old(Source(reader)), hash), weight, limits);
    }

    lemma TrustedMeans()
      ensures Trusted() <==> Index in vault.disk && vault.disk[Index].plain == catalog && !cleanupPending
    {
    }

    /** The catalog on disk is the expected one and no cleanup is outstanding. */
    predicate Trusted()
      reads this, vault`disk
    {
      Index in vault.disk && vault.disk[Index].plain == catalog && !cleanupPending
    }

    /** Opens a vault: a store exists only once it has recovered. */
    static method Open(vault: Vault, limits: Limits, hash: Bytes -> Digest) returns (r: Result<Store>)
      requires vault.Valid()
      modifies vault
      ensures vault.Valid() && vault.faults >= old(vault.faults)
      ensures OnlyHarmless(old(vault.history), vault.history, old(vault.disk))
      ensures r.Ok? ==>
                && fresh(r.value) && r.value.Valid() && r.value.catalog != [] && r.value.Trusted()
                && r.value.vault == vault
                && Recoverable(old(vault.disk)) == Ok(r.value.ids) && WithinLimits(vault.disk, r.value.ids, limits)
      ensures r.Ok? ==> limits.Valid()
      ensures r.Failed? && (!limits.Valid() || Recoverable(old(vault.disk)).Failed?) ==> vault.disk == old(vault.disk)
      // Without a fault it succeeds exactly on valid limits and a disk that recovers within them.
      ensures vault.faults == old(vault.faults) && Index in old(vault.disk) ==>
                (r.Ok? <==> limits.Valid() && Recovers(old(vault.disk), limits))
      ensures vault.faults == old(vault.faults) && old(vault.disk) == map[] && limits.Valid() ==>
                Sound(vault.disk, []) && (r.Ok? <==> vault.disk[Index].size <= limits.protectedBytes)
    {
      if !limits.Valid() {
        NothingYet(vault.history, vault.disk);
        return Failed;
      }
      var store := new Store(vault, limits, hash);
      var ok := store.Recover();
      return if ok then Ok(store) else Failed;
    }

    method ReadEntry(id: Bytes) returns (r: Result<Snapshot>)
      requires Valid()
      modifies vault`faults
      ensures Valid() && vault.faults >= old(vault.faults)
      ensures r.Ok? ==> Trusted() && id in ids && r == Stored(vault.disk, id) && vault.faults == old(vault.faults)
      ensures r.Failed? ==>
                vault.faults > old(vault.faults) || !Trusted() || id !in ids || Stored(vault.disk, id).Failed?
    {
      var ok := Check();
      if !ok || id !in ids {
        return Failed;
      }
      r := StoredEntry(id);
    }

    /** The complete original of an entry, every chunk and the whole digest verified. */
    method ReadMedia(id: Bytes) returns (r: Result<Bytes>)
      requires Valid()
      modifies vault`faults
      ensures vault.faults >= old(vault.faults)
      ensures r.Ok? ==> Trusted() && id in ids && r == Media(vault.disk, id, hash)
      ensures r.Failed? ==>
                vault.faults > old(vault.faults) || !Trusted() || id !in ids || Media(vault.disk, id, hash).Failed?
    {
      hide *;
      var entry := ReadEntry(id);
      if entry.Failed? {
        StoredFails(vault.disk, id, hash);
        return Failed;
      }
      var s := entry.value;
      if s.media != COMPLETE {
        MediaFails(vault.disk, id, hash);
        return Failed;
      }
      StoredIsValid(vault.disk, id);
      var result := JoinChunks(id, s.chunks, s.mediaBytes);
      if result.Failed? || |result.value| != s.mediaBytes || hash(result.value) != s.digest {
        MediaFails(vault.disk, id, hash);
        return Failed;
      }
      MediaHolds(vault.disk, id, hash);
      return result;
    }

    method JoinChunks(id: Bytes, chunks: nat, total: nat) returns (r: Result<Bytes>)
      requires chunks == ChunkCount(total)
      modifies vault`faults
      ensures vault.faults >= old(vault.faults)
      ensures r.Ok? ==> ChunksOf(vault.disk, id, chunks, total) && r.value == Joined(vault.disk, id, chunks)
      ensures r.Failed? ==> vault.faults > old(vault.faults) || !ChunksOf(vault.disk, id, chunks, total)
    {
      var result: Bytes := [];
      for part := 0 to chunks
        invariant vault.faults == old(vault.faults)
        invariant ChunksOf(vault.disk, id, part, total) && result == Joined(vault.disk, id, part)
        invariant |result| == Min(part * CHUNK_BYTES, total)
      {
        var chunk :- vault.Read(Chunk(id, part));
        if chunk.None? || |chunk.value| != Min(CHUNK_BYTES, total - |result|) {
          return Failed;
        }
        result := result + chunk.value;
      }
      return Ok(result);
    }

    /** One page of ids, newest first. */
    method Page(offset: nat, count: nat) returns (r: Result<seq<Bytes>>)
      requires Valid()
      modifies vault`faults
      ensures r.Ok? ==> Trusted() && 0 < count <= 20 && r.value == Slice(Newest(ids), offset, count)
      ensures r.Ok? ==>
                && |r.value| == (if offset >= |ids| then 0 else Min(count, |ids| - offset))
                && forall k :: 0 <= k < |r.value| ==> r.value[k] == ids[|ids| - 1 - offset - k]
      ensures r.Failed? ==> vault.faults > old(vault.faults) || !Trusted() || count == 0 || count > 20
    {
      hide *;
      var ok := Check();
      TrustedMeans();
      if !ok || count == 0 || count > 20 {
        return Failed;
      }
      SliceOf(Newest(ids), offset, count);
      SliceAt(Newest(ids), offset, count);
      NewestAt(ids, 0);
      forall i | 0 <= i < |ids| ensures Newest(ids)[i] == ids[|ids| - 1 - i] {
        NewestAt(ids, i);
      }
      var result := [];
      if offset >= |ids| {
        return Ok(result);
      }
      var end := if |ids| <= offset + count then |ids| else offset + count;
      for i := offset to end
        invariant result == Newest(ids)[offset..i]
      {
        NewestAt(ids, i);
        assert Newest(ids)[offset..i + 1] == Newest(ids)[offset..i] + [Newest(ids)[i]];
        result := result + [ids[|ids| - 1 - i]];
      }
      return Ok(result);
    }

    /** One page of the ids of a conversation, newest first. */
    method PageFor(conversation: Conversation, offset: nat, count: nat) returns (r: Result<seq<Bytes>>)
      requires Valid()
      modifies vault`faults
      ensures vault.faults >= old(vault.faults)
      ensures r.Ok? ==>
                && Trusted() && conversation.Valid() && 0 < count <= 20
                && r.value == Slice(Matching(vault.disk, Newest(ids), conversation), offset, count)
      ensures r.Ok? ==>
                var found := Matching(vault.disk, Newest(ids), conversation);
                && |r.value| == (if offset >= |found| then 0 else Min(count, |found| - offset))
                && forall k :: 0 <= k < |r.value| ==> r.value[k] == found[offset + k]
      ensures r.Failed? ==>
                || vault.faults > old(vault.faults) || !Trusted() || !conversation.Valid() || count == 0 || count > 20
                || exists i :: 0 <= i < |ids| && Stored(vault.disk, ids[i]).Failed?
    {
      hide *;
      var ok := Check();
      TrustedMeans();
      if !ok || !conversation.Valid() || count == 0 || count > 20 {
        return Failed;
      }
      ghost var newest, d := Newest(ids), vault.disk;
      SliceAt(Matching(d, newest, conversation), offset, count);
      var result: seq<Bytes>, skipped := [], 0;
      NewestAt(ids, 0);
      PagingBegins(d, newest, conversation, offset, count);
      for i := 0 to |ids|
        invariant vault.faults == old(vault.faults)
        invariant Paging(Matching(d, newest[..i], conversation), offset, count, skipped, result)
      {
        var id := ids[|ids| - 1 - i];
        var stored := StoredEntry(id);
        if stored.Failed? {
          return Failed;
        }
        NewestAt(ids, i);
        NextMatch(d, newest, i, conversation);
        if !conversation.Includes(stored.value) {
          continue;
        }
        MatchingOfPrefix(d, newest, i + 1, conversation);
        Turned(Matching(d, newest[..i], conversation), id, Matching(d, newest, conversation), offset, count, skipped,
            result);
        if skipped < offset {
          skipped := skipped + 1;
          continue;
        }
        result := result + [id];
        if |result| == count {
          return Ok(result);
        }
      }
      assert newest[..|ids|] == newest;
      LastPage(Matching(d, newest, conversation), offset, count, skipped, result);
      return Ok(result);
    }
  }

  /** A whole chat, or one topic of it. */
  datatype Conversation = Conversation(peerType: Byte, peer: U64, topic: Option<U64>)
  {
    predicate Valid() { 1 <= peerType <= 3 && peer != 0 }

    predicate Includes(s: Snapshot) {
      s.peerType == peerType && s.peer == peer && (topic.Some? ==> s.topic == topic.value)
    }
  }

  function Newest(ids: seq<Bytes>): seq<Bytes> { seq(|ids|, i requires 0 <= i < |ids| => ids[|ids| - 1 - i]) }

  function Slice(ids: seq<Bytes>, offset: nat, count: nat): seq<Bytes> {
    ids[Min(offset, |ids|)..Min(offset + count, |ids|)]
  }

  /** The listed ids whose snapshots belong to the conversation, in the same order. */
  function Matching(d: Disk, ids: seq<Bytes>, c: Conversation): seq<Bytes> {
    if ids == [] then []
    else
      var last := ids[|ids| - 1];
      Matching(d, ids[..|ids| - 1], c)
      + if Stored(d, last).Ok? && c.Includes(Stored(d, last).value) then [last] else []
  }

  /** Of the matching ids seen so far, `skipped` were passed over and the rest form the page. */
  ghost predicate Paging(found: seq<Bytes>, offset: nat, count: nat, skipped: nat, result: seq<Bytes>) {
    |result| < count && skipped == Min(offset, |found|) && result == found[skipped..]
  }

  lemma PagingBegins(d: Disk, ids: seq<Bytes>, c: Conversation, offset: nat, count: nat)
    requires count > 0
    ensures Paging(Matching(d, ids[..0], c), offset, count, 0, [])
  {
    NothingMatches(d, ids, c);
  }

  lemma Turned(found: seq<Bytes>, id: Bytes, all: seq<Bytes>, offset: nat, count: nat, skipped: nat, result: seq<Bytes>)
    requires Paging(found, offset, count, skipped, result) && found + [id] <= all
    ensures skipped < offset ==> Paging(found + [id], offset, count, skipped + 1, result)
    ensures skipped >= offset && |result| + 1 < count ==> Paging(found + [id], offset, count, skipped, result + [id])
    ensures |result + [id]| == |result| + 1
    ensures skipped >= offset && |result| + 1 == count ==> Slice(all, offset, count) == result + [id]
    ensures |result| < count
  {
  }

  lemma LastPage(found: seq<Bytes>, offset: nat, count: nat, skipped: nat, result: seq<Bytes>)
    requires Paging(found, offset, count, skipped, result)
    ensures Slice(found, offset, count) == result
  {
  }

  lemma SliceOf(ids: seq<Bytes>, offset: nat, count: nat)
    ensures offset >= |ids| ==> Slice(ids, offset, count) == []
    ensures offset < |ids| ==>
              Slice(ids, offset, count) == ids[offset..if |ids| <= offset + count then |ids| else offset + count]
  {
  }

  lemma SliceAt(ids: seq<Bytes>, offset: nat, count: nat)
    ensures |Slice(ids, offset, count)| == if offset >= |ids| then 0 else Min(count, |ids| - offset)
    ensures forall k :: 0 <= k < |Slice(ids, offset, count)| ==> Slice(ids, offset, count)[k] == ids[offset + k]
  {
  }

  lemma NewestAt(ids: seq<Bytes>, i: nat)
    ensures |Newest(ids)| == |ids|
    ensures i < |ids| ==> Newest(ids)[i] == ids[|ids| - 1 - i]
  {
  }

  lemma NothingMatches(d: Disk, ids: seq<Bytes>, c: Conversation)
    ensures Matching(d, ids[..0], c) == []
  {
  }

  lemma NextMatch(d: Disk, ids: seq<Bytes>, i: nat, c: Conversation)
    requires i < |ids|
    ensures if Stored(d, ids[i]).Ok? && c.Includes(Stored(d, ids[i]).value)
            then Matching(d, ids[..i + 1], c) == Matching(d, ids[..i], c) + [ids[i]]
            else Matching(d, ids[..i + 1], c) == Matching(d, ids[..i], c)
  {
    hide Stored;
    assert ids[..i + 1][..i] == ids[..i];
  }

  lemma {:induction false} MatchingOfPrefix(d: Disk, ids: seq<Bytes>, i: nat, c: Conversation)
    requires i <= |ids|
    ensures Matching(d, ids[..i], c) <= Matching(d, ids, c)
  {
    hide Stored;
    if i < |ids| {
      MatchingOfPrefix(d, ids[..|ids| - 1], i, c);
      assert ids[..|ids| - 1][..i] == ids[..i];
    } else {
      assert ids[..i] == ids;
    }
  }

  /** A page names exactly the entries of the conversation, each once, in the order of the whole listing. */
  lemma {:induction false} MatchingIsExact(d: Disk, ids: seq<Bytes>, c: Conversation)
    ensures forall id ::
                id in Matching(d, ids, c) <==>
                    && id in ids && Stored(d, id).Ok?
                    && var s := Stored(d, id).value;
                       s.peerType == c.peerType && s.peer == c.peer && (c.topic.Some? ==> s.topic == c.topic.value)
    ensures Distinct(ids) ==> Distinct(Matching(d, ids, c))
  {
    hide Stored;
    if ids != [] {
      MatchingIsExact(d, ids[..|ids| - 1], c);
      assert ids == ids[..|ids| - 1] + [ids[|ids| - 1]];
    }
  }

  /** They come in the order of the listing. */
  lemma {:induction false} MatchingInOrder(d: Disk, ids: seq<Bytes>, c: Conversation) returns (at: seq<nat>)
    ensures |at| == |Matching(d, ids, c)| && (forall k, l :: 0 <= k < l < |at| ==> at[k] < at[l])
    ensures forall k :: 0 <= k < |at| ==> at[k] < |ids| && Matching(d, ids, c)[k] == ids[at[k]]
  {
    hide Stored;
    if ids == [] {
      at := [];
    } else {
      at := MatchingInOrder(d, ids[..|ids| - 1], c);
      if |Matching(d, ids, c)| > |at| {
        at := at + [|ids| - 1];
      }
    }
  }

  lemma StoredFails(d: Disk, id: Bytes, hash: Bytes -> Digest)
    ensures Stored(d, id).Failed? ==> Media(d, id, hash).Failed?
  {
  }

  lemma StoredIsValid(d: Disk, id: Bytes)
    requires Stored(d, id).Ok? && Stored(d, id).value.media == COMPLETE
    ensures Stored(d, id).value.chunks == ChunkCount(Stored(d, id).value.mediaBytes)
  {
    EncodeInvertsDecode(d[Entry(id)].plain);
  }

  lemma MediaFails(d: Disk, id: Bytes, hash: Bytes -> Digest)
    requires Stored(d, id).Ok?
    ensures var s := Stored(d, id).value;
            (s.media != COMPLETE || !ChunksOf(d, id, s.chunks, s.mediaBytes)
                || |Joined(d, id, s.chunks)| != s.mediaBytes
             || hash(Joined(d, id, s.chunks)) != s.digest) ==> Media(d, id, hash).Failed?
  {
  }

  lemma MediaHolds(d: Disk, id: Bytes, hash: Bytes -> Digest)
    requires Stored(d, id).Ok?
    ensures var s := Stored(d, id).value;
            (s.media == COMPLETE && ChunksOf(d, id, s.chunks, s.mediaBytes) && |Joined(d, id, s.chunks)| == s.mediaBytes
             && hash(Joined(d, id, s.chunks)) == s.digest) ==> Media(d, id, hash) == Ok(Joined(d, id, s.chunks))
  {
  }

  function Source(reader: Reader?): Option<Bytes>
    reads if reader == null then {} else {reader}
  {
    if reader == null then None else Some(reader.source)
  }

  /** What `Add` demands of its arguments before it touches anything. */
  predicate Requested(snapshot: Snapshot, mediaBytes: nat, withReader: bool) {
    && mediaBytes <= MAX_MEDIA_BYTES && (mediaBytes != 0 <==> withReader)
    && snapshot.media != COMPLETE && snapshot.mediaBytes == 0 && snapshot.chunks == 0 && Zero(snapshot.digest)
    && SnapshotCodec.Valid(snapshot)
  }

  /** What the reader must deliver: exactly the declared bytes, and a digest that is not all zeros. */
  predicate Supplied(mediaBytes: nat, source: Option<Bytes>, hash: Bytes -> Digest) {
    source.Some? ==> |source.value| == mediaBytes && !Zero(hash(source.value))
  }

  /** The snapshot as stored: a supplied original makes it complete. */
  function Final(snapshot: Snapshot, source: Option<Bytes>, hash: Bytes -> Digest): Snapshot {
    if source.None? || |source.value| > MAX_MEDIA_BYTES then snapshot
    else snapshot.(media := COMPLETE, mediaBytes := |source.value|, chunks := ChunkCount(|source.value|),
        digest := hash(source.value))
  }

  // ----- steps of `Add`

  /** Between two moments the whole new entry was on disk, and it was `weight` bytes. */
  ghost predicate Tried(earlier: seq<Disk>, later: seq<Disk>, id: Bytes, final: Snapshot, weight: nat) {
    exists i :: |earlier| <= i < |later| && HasEntry(later[i], id) && Stored(later[i], id) == Ok(final)
        && BytesOf(later[i], [id]) == weight
  }

  /** The new entry was staged, and with the reserve for the catalog it exceeds the quota on its own. */
  ghost predicate TooBig(earlier: seq<Disk>, later: seq<Disk>, id: Bytes, final: Snapshot, weight: nat,
      limits: Limits)
  {
    Tried(earlier, later, id, final, weight) && INDEX_RESERVE + weight > limits.protectedBytes
  }

  ghost predicate Refused(earlier: seq<Disk>, later: seq<Disk>, id: Bytes, final: Snapshot, weight: nat,
      limits: Limits)
  {
    !SnapshotCodec.Valid(final) || TooBig(earlier, later, id, final, weight, limits)
  }

  lemma TooLarge(earlier: seq<Disk>, later: seq<Disk>, id: Bytes, final: Snapshot, weight: nat, limits: Limits)
    requires Tried(earlier, later, id, final, weight)
    ensures INDEX_RESERVE + weight > limits.protectedBytes ==> Refused(earlier, later, id, final, weight, limits)
  {
    hide Tried;
  }

  lemma Unencodable(earlier: seq<Disk>, later: seq<Disk>, id: Bytes, final: Snapshot, weight: nat, limits: Limits)
    ensures !SnapshotCodec.Valid(final) ==> Refused(earlier, later, id, final, weight, limits)
  {
    hide SnapshotCodec.Valid;
  }

  /** What was refused over a part of a history was refused over the whole. */
  lemma StillRefused(first: seq<Disk>, second: seq<Disk>, third: seq<Disk>, fourth: seq<Disk>, base: Disk, id: Bytes,
      final: Snapshot, weight: nat, limits: Limits)
    requires first <= second && third <= fourth
    ensures Refused(second, third, id, final, weight, limits) ==> Refused(first, fourth, id, final, weight, limits)
  {
    hide SnapshotCodec.Valid, HasEntry, Stored, EntrySize;
    if Tried(second, third, id, final, weight) {
      var i :| |second| <= i < |third| && HasEntry(third[i], id) && Stored(third[i], id) == Ok(final)
          && BytesOf(third[i], [id]) == weight;
      assert fourth[i] == third[i];
    }
  }

  lemma RefusedExactly(earlier: seq<Disk>, later: seq<Disk>, id: Bytes, final: Snapshot, weight: nat, limits: Limits)
    ensures SnapshotCodec.Valid(final) ==>
              (Refused(earlier, later, id, final, weight, limits) <==>
                TooBig(earlier, later, id, final, weight, limits))
    ensures TooBig(earlier, later, id, final, weight, limits) ==> INDEX_RESERVE + weight > limits.protectedBytes
  {
    hide SnapshotCodec.Valid, Tried;
  }

  lemma FinalIsValid(snapshot: Snapshot, mediaBytes: nat, source: Option<Bytes>, hash: Bytes -> Digest)
    requires Requested(snapshot, mediaBytes, source.Some?)
    ensures Supplied(mediaBytes, source, hash) ==> SnapshotCodec.Valid(Final(snapshot, source, hash))
    ensures source.None? ==> Final(snapshot, source, hash) == snapshot
  {
    if source.Some? && |source.value| == mediaBytes {
      FinalSnapshot(snapshot, mediaBytes, source.value, hash);
    }
    hide SnapshotCodec.Valid;
  }

  lemma RequestedIsValid(snapshot: Snapshot, mediaBytes: nat, withReader: bool)
    ensures Requested(snapshot, mediaBytes, withReader) ==> SnapshotCodec.Valid(snapshot) && snapshot.chunks == 0
    ensures Requested(snapshot, mediaBytes, withReader) && withReader ==> 0 < mediaBytes <= MAX_MEDIA_BYTES
  {
  }

  lemma SourceOf(reader: Reader?)
    ensures Source(reader) == if reader == null then None else Some(reader.source)
  {
  }

  lemma NothingStaged(d: Disk, id: Bytes, snapshot: Snapshot, mediaBytes: nat, hash: Bytes -> Digest)
    requires Unused(d, id)
    ensures Extends(d, d, id) && Entry(id) !in d
    ensures Supplied(mediaBytes, None, hash) && Final(snapshot, None, hash) == snapshot
  {
  }

  lemma AnythingIsKey(staged: seq<Key>, id: Bytes)
    requires forall k :: k in staged ==> k.Chunk? && k.id == id
    ensures forall k :: k in staged ==> !k.Index? && k.id == id
  {
  }

  lemma MayBeUnsupplied(mediaBytes: nat, source: Bytes, hash: Bytes -> Digest)
    ensures |source| != mediaBytes ==> !Supplied(mediaBytes, Some(source), hash)
  {
  }

  lemma StagedIsReady(d: Disk, base: Disk, id: Bytes, chunks: nat, total: nat, content: Bytes)
    requires Staged(d, base, id, chunks, total, content) && Unused(base, id)
    ensures Extends(d, base, id) && Entry(id) !in d
    ensures forall part: nat :: part < chunks ==> Chunk(id, part) in d
    ensures forall k :: k in d && k !in base ==> k.Chunk? && k.part < chunks
  {
  }

  lemma FinalSnapshot(snapshot: Snapshot, mediaBytes: nat, source: Bytes, hash: Bytes -> Digest)
    requires SnapshotCodec.Valid(snapshot) && 0 < mediaBytes <= MAX_MEDIA_BYTES && |source| == mediaBytes
    ensures var final := Final(snapshot, Some(source), hash);
            && final == snapshot.(media := COMPLETE, mediaBytes := mediaBytes, chunks := ChunkCount(mediaBytes),
                 digest := hash(source))
            && (SnapshotCodec.Valid(final) <==> Supplied(mediaBytes, Some(source), hash))
  {
  }

  lemma MediaOfAdded(d: Disk, staged: Disk, base: Disk, id: Bytes, ids: seq<Bytes>, final: Snapshot, content: Bytes,
      hash: Bytes -> Digest)
    requires Staged(staged, base, id, final.chunks, |content|, content) && KeepsStaged(staged, d, ids) && id in ids
    requires Stored(d, id) == Ok(final) && final.media == COMPLETE && final.mediaBytes == |content|
    requires final.digest == hash(content)
    ensures Media(d, id, hash) == Ok(content)
  {
    hide Staged, Stored, Media;
    MediaOfStaged(d, staged, base, id, content, hash);
  }

  lemma HistoryOfMedia(first: seq<Disk>, second: seq<Disk>, third: seq<Disk>, base: Disk, id: Bytes, last: Disk,
      ids: seq<Bytes>)
    requires OnlyExtended(first, second, base, id) && OldThenNew(second, third, base, id, last, ids)
    ensures OldThenNew(first, third, base, id, last, ids)
  {
    hide Extends, Intact;
    forall i | |first| <= i < |third| ensures Extends(third[i], base, id) || Intact(third[i], last, ids) {
      if i < |second| { assert third[i] == second[i]; }
    }
  }

  lemma KeptTwice(base: Disk, staged: Disk, last: Disk, id: Bytes, ids: seq<Bytes>)
    requires Extends(staged, base, id) && KeepsStaged(staged, last, ids)
    ensures KeepsStaged(base, last, ids)
  {
  }

  lemma SweepIsIntact(d: Disk, base: Disk, ids: seq<Bytes>, removed: seq<Bytes>, counts: seq<Weight>)
    requires |removed| == |counts| && Sweeping(d, base, ids, removed, counts, |removed|, 0)
    ensures Intact(d, base, ids)
  {
  }

  lemma NothingTouched(history: seq<Disk>, base: Disk, ids: seq<Bytes>)
    ensures OnlyIntact(history, history, base, ids) && Intact(base, base, ids)
  {
  }

  lemma StillIntact(earlier: seq<Disk>, later: seq<Disk>, d: Disk, base: Disk, ids: seq<Bytes>)
    requires OnlyIntact(earlier, later, base, ids) && Intact(d, base, ids)
    ensures OnlyIntact(earlier, later + [d], base, ids)
  {
  }

  /** The history only grew, by disks on which the wanted records of `base` are intact. */
  ghost predicate OnlyIntact(earlier: seq<Disk>, later: seq<Disk>, base: Disk, ids: seq<Bytes>) {
    earlier <= later && forall i :: |earlier| <= i < |later| ==> Intact(later[i], base, ids)
  }

  /** Records of listed entries are kept as they were. */
  ghost predicate KeepsStaged(earlier: Disk, later: Disk, ids: seq<Bytes>) {
    forall k :: k in earlier && !k.Index? && k.id in ids ==> k in later && later[k] == earlier[k]
  }

  /** The history only grew: first by staging over `base`, then by disks that keep everything `last` lists. */
  ghost predicate OldThenNew(earlier: seq<Disk>, later: seq<Disk>, base: Disk, id: Bytes, last: Disk, ids: seq<Bytes>) {
    earlier <= later
    && forall i :: |earlier| <= i < |later| ==> Extends(later[i], base, id) || Intact(later[i], last, ids)
  }

  /** Staging steps, and then the commit as the last one. */
  ghost predicate OnlyExtendedThen(earlier: seq<Disk>, later: seq<Disk>, base: Disk, id: Bytes) {
    |later| > |earlier| && OnlyExtended(earlier, later[..|later| - 1], base, id)
  }

  lemma CoversStaged(before: Disk, d: Disk, base: Disk, id: Bytes, staged: seq<Key>)
    requires forall k :: k in d ==> k in before || k == Entry(id)
    requires forall k :: k in before && k !in base ==> k in staged
    requires forall k :: k in staged ==> k.Chunk? && k.id == id
    ensures forall k :: k in d && k !in base ==> k in staged + [Entry(id)]
    ensures forall k :: k in staged + [Entry(id)] ==> !k.Index? && k.id == id
  {
  }

  lemma ExtendedTwice(first: seq<Disk>, second: seq<Disk>, third: seq<Disk>, base: Disk, id: Bytes)
    requires OnlyExtended(first, second, base, id) && OnlyExtended(second, third, base, id)
    ensures OnlyExtended(first, third, base, id)
  {
    forall i | |first| <= i < |third| ensures Extends(third[i], base, id) {
      if i < |second| { assert third[i] == second[i]; }
    }
  }

  lemma HistoryOfAdd(first: seq<Disk>, second: seq<Disk>, third: seq<Disk>, committed: Disk, last: Disk, base: Disk,
      id: Bytes, ids: seq<Bytes>)
    requires OnlyExtendedThen(first, second, base, id) && second[|second| - 1] == committed
    requires Sound(committed, ids) && OnlyIntact(second, third, committed, ids) && Intact(last, committed, ids)
    ensures OldThenNew(first, third, base, id, last, ids)
  {
    hide Sound, Intact, Extends;
    forall i | |first| <= i < |third| ensures Extends(third[i], base, id) || Intact(third[i], last, ids) {
      if i < |second| - 1 {
        assert third[i] == second[..|second| - 1][i];
      } else if i == |second| - 1 {
        assert third[i] == committed;
        NothingTouched(second, committed, ids);
        IntactSwap(committed, committed, last, ids);
      } else {
        IntactSwap(third[i], committed, last, ids);
      }
    }
  }

  lemma KeptBySweep(before: Disk, committed: Disk, last: Disk, ids: seq<Bytes>, removed: seq<Bytes>,
      counts: seq<Weight>)
    requires |removed| == |counts|
    requires forall k :: k in before && !k.Index? ==> k in committed && committed[k] == before[k]
    requires forall k :: k in committed ==> Wanted(committed, ids, k) || Removable(k, removed, counts, 0)
    requires forall i :: 0 <= i < |removed| ==> removed[i] !in ids
    requires Intact(last, committed, ids)
    ensures KeepsStaged(before, last, ids)
  {
  }

  lemma StagedThenCommitted(earlier: seq<Disk>, later: seq<Disk>, staged: Disk, d: Disk, base: Disk, id: Bytes)
    requires OnlyExtended(earlier, later, base, id) && Extends(staged, base, id)
    ensures OnlyExtendedThen(earlier, later + [d], base, id)
    ensures d == staged ==> OnlyExtended(earlier, later + [d], base, id)
  {
    assert (later + [d])[..|later|] == later;
  }

  lemma StagedIsWeighed(d: Disk, base: Disk, id: Bytes, ids: seq<Bytes>, weights: seq<Weight>)
    requires Exact(base, ids) && Weighed(base, ids, weights) && Extends(d, base, id)
    ensures Weighed(d, ids, weights) && |weights| == |ids|
  {
    assert Intact(d, base, ids);
    IntactWeighed(d, base, ids, weights);
  }

  /** The history only grew, by disks that hold `base` and records of `id`. */
  ghost predicate OnlyExtended(earlier: seq<Disk>, later: seq<Disk>, base: Disk, id: Bytes) {
    earlier <= later && forall i :: |earlier| <= i < |later| ==> Extends(later[i], base, id)
  }

  lemma CatalogIsNotEmpty(ids: seq<Bytes>)
    requires Cataloged(ids).Ok?
    ensures Cataloged(ids).value != []
  {
  }

  lemma CatalogFitsPayload(ids: seq<Bytes>)
    requires Cataloged(ids).Ok?
    ensures |Cataloged(ids).value| <= MAX_PAYLOAD
  {
    LinesSize(ids);
  }

  /** How far staging is: all chunks so far are full, except that the last one may end the original. */
  ghost predicate Progress(mediaBytes: nat, remaining: nat, chunks: nat, consumed: nat) {
    && consumed + remaining == mediaBytes
    && if remaining == 0 then chunks == ChunkCount(mediaBytes) else chunks * CHUNK_BYTES == consumed
  }

  lemma StagingBegins(base: Disk, id: Bytes, mediaBytes: nat)
    ensures Progress(mediaBytes, mediaBytes, 0, 0) && Extends(base, base, id)
  {
  }

  lemma NextStep(mediaBytes: nat, remaining: nat, chunks: nat, consumed: nat, count: nat)
    requires Progress(mediaBytes, remaining, chunks, consumed) && remaining != 0
    requires count == if remaining <= CHUNK_BYTES then remaining else CHUNK_BYTES
    ensures 0 < count <= MAX_PAYLOAD && count == Min(CHUNK_BYTES, mediaBytes - chunks * CHUNK_BYTES)
    ensures Progress(mediaBytes, remaining - count, chunks + 1, consumed + count)
  {
  }

  lemma AllStaged(mediaBytes: nat, chunks: nat, consumed: nat)
    requires Progress(mediaBytes, 0, chunks, consumed)
    ensures consumed == mediaBytes && chunks == ChunkCount(mediaBytes)
  {
  }

  lemma NotExtendedYet(history: seq<Disk>, base: Disk, id: Bytes)
    ensures OnlyExtended(history, history, base, id) && Staged(base, base, id, 0, 0, [])
  {
  }

  lemma ExtendedByOne(earlier: seq<Disk>, later: seq<Disk>, d: Disk, before: Disk, base: Disk, id: Bytes, k: Key)
    requires OnlyExtended(earlier, later, base, id) && Extends(before, base, id) && Unused(base, id)
    requires !k.Index? && k.id == id && (d == before || (k in d && d == before[k := d[k]]))
    ensures Extends(d, base, id) && OnlyExtended(earlier, later + [d], base, id)
  {
  }

  /** The history only grew, by disks that recover as `before` does. */
  ghost predicate OnlyHarmless(earlier: seq<Disk>, later: seq<Disk>, before: Disk) {
    earlier <= later && forall i :: |earlier| <= i < |later| ==> Harmless(later[i], before)
  }

  lemma NothingYet(history: seq<Disk>, before: Disk)
    ensures OnlyHarmless(history, history, before)
  {
  }

  lemma OneMore(earlier: seq<Disk>, later: seq<Disk>, d: Disk, before: Disk)
    requires OnlyHarmless(earlier, later, before) && Harmless(d, before)
    ensures OnlyHarmless(earlier, later + [d], before)
  {
  }

  lemma StillHarmless(first: seq<Disk>, second: seq<Disk>, third: seq<Disk>, middle: Disk, before: Disk)
    requires OnlyHarmless(first, second, before) && Harmless(middle, before) && OnlyHarmless(second, third, middle)
    ensures OnlyHarmless(first, third, before)
  {
    hide Harmless;
    forall i | |first| <= i < |third| ensures Harmless(third[i], before) {
      if i < |second| {
        assert third[i] == second[i];
      } else {
        HarmlessTwice(third[i], middle, before);
      }
    }
  }

  /** A catalog created over nothing lists nothing. */
  lemma StillValid(start: Disk, d: Disk)
    requires d == start || (start == map[] && Exact(d, []))
    ensures Recoverable(d) == Recoverable(start)
    ensures Recoverable(start).Failed? ==> d == start
    ensures d != start ==> Index in d && Parsed(d[Index].plain) == Ok([]) && Exact(d, []) && Weighed(d, [], [])
    ensures Index in start ==> d == start
  {
  }

  lemma EmptyCatalog()
    ensures Cataloged([]) == Ok(CATALOG_MAGIC) && Parsed(CATALOG_MAGIC) == Ok([])
  {
    assert CATALOG_MAGIC + Lines([]) == CATALOG_MAGIC;
    ParseInvertsCatalog([]);
  }
}
