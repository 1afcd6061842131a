/**
 * The key/value vault under the archive store.
 * Single-key writes and erases are atomic; any call may fail, which `faults` counts.
 */
module ArchiveVault {
  import opened Common
  import opened SnapshotCodec
  import opened ArchiveDisk

  const MAX_FILE := 200000

  class Vault {
    var disk: Disk
    /** Every state the disk has been in; the last one is the current state. */
    ghost var history: seq<Disk>
    /** How many calls have failed for a reason that lies outside the stored data. */
    ghost var faults: nat

    ghost predicate Valid()
      reads `disk, `history
    {
      && history != [] && history[|history| - 1] == disk
      && forall k :: k in disk ==> 1 <= disk[k].size <= MAX_FILE
    }

    constructor (disk: Disk)
      requires forall k :: k in disk ==> 1 <= disk[k].size <= MAX_FILE
      ensures Valid() && this.disk == disk && history == [disk] && faults == 0
    {
      this.disk := disk;
      history := [disk];
      faults := 0;
    }

    method Read(key: Key) returns (r: Result<Option<Bytes>>)
      modifies `faults
      ensures match r
              case Ok(found) => faults == old(faults) && found == (if key in disk then Some(disk[key].plain) else None)
              case Failed => faults > old(faults)
    {
      if * {
        faults := faults + 1;
        return Failed;
      }
      return Ok(if key in disk then Some(disk[key].plain) else None);
    }

    method ProtectedBytes(key: Key) returns (r: Result<nat>)
      modifies `faults
      ensures faults >= old(faults)
      ensures match r
              case Ok(size) => faults == old(faults) && key in disk && size == disk[key].size
              case Failed => faults > old(faults) || key !in disk
    {
      if * {
        faults := faults + 1;
        return Failed;
      }
      return if key in disk then Ok(disk[key].size) else Failed;
    }

    /**
     * Replaces one record.  A failed write of the catalog has no effect; a failed write of an entry or of
     * a chunk may or may not have reached the disk.
     */
    method Write(key: Key, plain: Bytes) returns (ok: bool)
      requires Valid()
      modifies this
      ensures Valid() && history == old(history) + [disk]
      ensures ok ==> faults == old(faults)
      ensures !ok ==> faults > old(faults) || |plain| > MAX_PAYLOAD
      ensures disk == old(disk) || (key in disk && disk == old(disk)[key := disk[key]] && disk[key].plain == plain)
      ensures ok ==> key in disk && disk == old(disk)[key := disk[key]] && disk[key].plain == plain
      ensures !ok && key.Index? ==> disk == old(disk)
    {
      ok := |plain| <= MAX_PAYLOAD;
      if * {
        faults := faults + 1;
        ok := false;
      }
      var reached: bool := *;
      if ok || (|plain| <= MAX_PAYLOAD && !key.Index? && reached) {
        var size :| 1 <= size <= MAX_FILE;
        disk := disk[key := Record(plain, size)];
      }
      history := history + [disk];
    }

    /** Succeeds on a missing key; a failed erase may or may not have removed the record. */
    method Erase(key: Key) returns (ok: bool)
      requires Valid()
      modifies this
      ensures Valid() && history == old(history) + [disk]
      ensures disk == old(disk) || disk == old(disk) - {key}
      ensures ok ==> disk == old(disk) - {key} && faults == old(faults)
      ensures !ok ==> faults > old(faults)
    {
      ok := true;
      if * {
        faults := faults + 1;
        ok := false;
      }
      var reached: bool := *;
      if ok || reached {
        disk := disk - {key};
      }
      history := history + [disk];
    }

    method ArchiveRecords() returns (r: Result<seq<Key>>)
      modifies `faults
      ensures r.Ok? ==> faults == old(faults)
      ensures r.Failed? ==> faults > old(faults)
      ensures r.Ok? ==> forall k :: k in r.value <==> k in disk
    {
      if * {
        faults := faults + 1;
        return Failed;
      }
      var records: seq<Key>, rest := [], disk.Keys;
      while rest != {}
        invariant forall k :: k in disk <==> k in records || k in rest
        decreases rest
      {
        var k :| k in rest;
        records, rest := records + [k], rest - {k};
      }
      return Ok(records);
    }

    /** Removes the leftovers of interrupted atomic writes, which are not records. */
    method CleanupArchiveTemporary() returns (ok: bool)
      modifies `faults
      ensures ok ==> faults == old(faults)
      ensures !ok ==> faults > old(faults)
    {
      ok := true;
      if * {
        faults := faults + 1;
        ok := false;
      }
    }
  }
}
