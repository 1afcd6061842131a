/**
 * Crash safety of the archive store as a statement about disks: what any interruption leaves, and what recovery makes
 * of it.
 */
module ArchiveCrash {
  import opened Common
  import opened SnapshotCodec
  import opened CatalogCodec
  import opened ArchiveDisk
  import opened ArchiveStore

  /**
   * `interrupted` is any disk `Add` can be stopped on: everything of `base` with staged records of `id`, or
   * everything the new catalog on `last` lists.  Recovery brings back exactly the old or exactly the new archive,
   * and succeeds within the limits as long as the catalog keeps its reserve.
   */
  lemma InterruptedAddRecovers(interrupted: Disk, base: Disk, ids: seq<Bytes>, id: Bytes, last: Disk,
      newIds: seq<Bytes>, limits: Limits)
    requires Exact(base, ids) && Sound(last, newIds)
    requires Extends(interrupted, base, id) || Intact(interrupted, last, newIds)
    ensures || (Recoverable(interrupted) == Ok(ids) && Restricted(interrupted, ids) == base)
            || (Recoverable(interrupted) == Ok(newIds) && Restricted(interrupted, newIds) == Restricted(last, newIds))
    ensures Ready(base, ids, limits) && KeepsQuota(last, newIds, limits) && interrupted[Index].size <= INDEX_RESERVE ==>
              Recovers(interrupted, limits)
  {
    if Extends(interrupted, base, id) {
      assert Intact(interrupted, base, ids);
      RestrictedIsBase(interrupted, base, ids);
      IntactIsHarmless(interrupted, base, ids);
      IntactIsReady(interrupted, base, ids, limits);
    } else {
      var kept := Restricted(last, newIds);
      RestrictedIsExact(last, newIds);
      IntactSwap(interrupted, last, kept, newIds);
      RestrictedIsBase(interrupted, kept, newIds);
      IntactIsHarmless(interrupted, last, newIds);
      IntactIsReady(interrupted, last, newIds, limits);
      IntactSound(interrupted, last, newIds);
    }
    hide Sound, Exact, Intact, Extends, Restricted;
  }

  /** A catalog file within its reserve keeps a committed archive within the quota that recovery applies. */
  lemma CommittedArchiveIsWithinLimits(d: Disk, ids: seq<Bytes>, weights: seq<Weight>, prune: nat, id: Bytes,
      weight: Weight, limits: Limits)
    requires ShortestPrefix(weights, prune, weight.bytes, limits)
    requires Sound(d, ids) && Weighed(d, ids, weights[prune..] + [weight])
    ensures WithinLimits(d, ids, limits) <==> d[Index].size + TotalSize(d, ids) <= limits.protectedBytes
    ensures d[Index].size <= INDEX_RESERVE ==> WithinLimits(d, ids, limits)
  {
    WeighedTotal(d, ids, weights[prune..] + [weight]);
    SumMore(weights[prune..], weight);
  }

  // ----- whole lives of an archive, with any number of interruptions

  /** An add under a fresh id that was stopped anywhere between its first step and its end. */
  ghost predicate AddStep(d: Disk, next: Disk, id: Bytes, ids: seq<Bytes>, newIds: seq<Bytes>, last: Disk,
      limits: Limits)
  {
    && Exact(d, ids) && Unused(d, id)
    && (|| Extends(next, d, id)
        || (Sound(last, newIds) && KeepsQuota(last, newIds, limits) && KeepsStaged(d, last, newIds)
             && Intact(next, last, newIds)))
  }

  /** One session of the program: a recovery, or an add after a completed recovery, either stopped anywhere. */
  ghost predicate Session(d: Disk, next: Disk, limits: Limits) {
    Harmless(next, d) || exists id, ids, newIds, last :: AddStep(d, next, id, ids, newIds, last, limits)
  }

  ghost predicate Lists(d: Disk, id: Bytes) {
    Recoverable(d).Ok? && id in Recoverable(d).value
  }

  /** Every disk an accepted `Add` passes through is one it may be stopped on. */
  lemma EveryMomentOfAdd(earlier: seq<Disk>, later: seq<Disk>, base: Disk, ids: seq<Bytes>, id: Bytes, last: Disk,
      newIds: seq<Bytes>, limits: Limits)
    requires Exact(base, ids) && Unused(base, id) && Sound(last, newIds) && KeepsQuota(last, newIds, limits)
    requires KeepsStaged(base, last, newIds)
    requires OldThenNew(earlier, later, base, id, last, newIds)
    ensures forall i :: |earlier| <= i < |later| ==> Session(base, later[i], limits)
  {
    forall i | |earlier| <= i < |later| ensures Session(base, later[i], limits) {
      assert AddStep(base, later[i], id, ids, newIds, last, limits);
    }
  }

  /** So is every disk a refused `Add` passes through. */
  lemma EveryMomentOfRefusal(earlier: seq<Disk>, later: seq<Disk>, base: Disk, ids: seq<Bytes>, id: Bytes,
      limits: Limits)
    requires Exact(base, ids) && Unused(base, id) && OnlyExtended(earlier, later, base, id)
    ensures forall i :: |earlier| <= i < |later| ==> Session(base, later[i], limits)
  {
    forall i | |earlier| <= i < |later| ensures Session(base, later[i], limits) {
      assert AddStep(base, later[i], id, ids, ids, base, limits);
    }
  }

  /** The protected catalog is no larger than what is set aside for it. */
  predicate Reserved(d: Disk) { Index in d ==> d[Index].size <= INDEX_RESERVE }

  lemma SessionKeepsEntries(d: Disk, next: Disk, limits: Limits, hash: Bytes -> Digest)
    requires Session(d, next, limits) && Recovers(d, limits) && Reserved(next) && limits.Valid()
    ensures Recovers(next, limits)
    ensures forall id :: Lists(d, id) && Lists(next, id) ==>
                Stored(next, id) == Stored(d, id) && Media(next, id, hash) == Media(d, id, hash)
  {
    var ids := Recoverable(d).value;
    hide Recovers, KeepsQuota, Sound, Ready;
    if Harmless(next, d) {
      HarmlessRecovers(next, d, limits);
      forall id | Lists(d, id) && Lists(next, id)
        ensures Stored(next, id) == Stored(d, id) && Media(next, id, hash) == Media(d, id, hash)
      {
        IntactKeepsEntry(next, d, ids, id, hash);
      }
    } else {
      var newId, listed, newIds, last :| AddStep(d, next, newId, listed, newIds, last, limits);
      AddStepRecovers(d, next, newId, listed, newIds, last, limits);
      forall id | Lists(d, id) && Lists(next, id)
        ensures Stored(next, id) == Stored(d, id) && Media(next, id, hash) == Media(d, id, hash)
      {
        AddKeepsEntry(d, next, newId, ids, newIds, last, limits, id, hash);
      }
    }
  }

  lemma AddStepRecovers(d: Disk, next: Disk, id: Bytes, ids: seq<Bytes>, newIds: seq<Bytes>, last: Disk, limits: Limits)
    requires AddStep(d, next, id, ids, newIds, last, limits) && Recovers(d, limits) && Reserved(next) && limits.Valid()
    ensures Recovers(next, limits) && Recoverable(d) == Ok(ids)
  {
    hide HasEntry, Wanted;
    if Extends(next, d, id) {
      assert Intact(next, d, ids);
      IntactIsHarmless(next, d, ids);
      HarmlessRecovers(next, d, limits);
    } else {
      InterruptedAddRecovers(next, d, ids, id, last, newIds, limits);
    }
  }

  lemma IntactKeepsEntry(d: Disk, base: Disk, ids: seq<Bytes>, id: Bytes, hash: Bytes -> Digest)
    requires Recoverable(base) == Ok(ids) && Intact(d, base, ids) && id in ids
    ensures Stored(d, id) == Stored(base, id) && Media(d, id, hash) == Media(base, id, hash)
  {
    var i :| 0 <= i < |ids| && ids[i] == id;
    assert HasEntry(base, ids[i]);
    IntactEntry(d, base, ids, id);
    IntactMedia(d, base, ids, id, hash);
  }

  lemma AddKeepsEntry(d: Disk, next: Disk, newId: Bytes, ids: seq<Bytes>, newIds: seq<Bytes>, last: Disk,
      limits: Limits, id: Bytes, hash: Bytes -> Digest)
    requires AddStep(d, next, newId, ids, newIds, last, limits) && Lists(d, id) && Lists(next, id)
    ensures Stored(next, id) == Stored(d, id) && Media(next, id, hash) == Media(d, id, hash)
  {
    var i :| 0 <= i < |ids| && ids[i] == id;
    assert HasEntry(d, ids[i]) && id != newId;
    if Extends(next, d, newId) {
      IntactKeepsEntry(next, d, ids, id, hash);
    } else {
      IntactIsHarmless(next, last, newIds);
      IntactKeepsEntry(next, last, newIds, id, hash);
      KeptEntry(d, last, newIds, id, hash);
    }
  }

  lemma KeptEntry(d: Disk, last: Disk, ids: seq<Bytes>, id: Bytes, hash: Bytes -> Digest)
    requires HasEntry(d, id) && KeepsStaged(d, last, ids) && id in ids
    ensures Stored(last, id) == Stored(d, id) && Media(last, id, hash) == Media(d, id, hash)
  {
    hide Decoding;
    SameChunks(last, d, id, Stored(d, id).value.chunks);
  }

  /**
   * Over any number of sessions, each cut short anywhere, the next recovery succeeds within the limits as long as
   * the catalog keeps its reserve, and an entry that is listed throughout keeps its snapshot and its original.
   */
  lemma {:induction false} ArchiveSurvives(run: seq<Disk>, limits: Limits, hash: Bytes -> Digest)
    requires run != [] && limits.Valid() && Recovers(run[0], limits)
    requires forall i :: 0 < i < |run| ==> Session(run[i - 1], run[i], limits) && Reserved(run[i])
    ensures forall i :: 0 <= i < |run| ==> Recovers(run[i], limits)
    ensures forall id :: (forall i :: 0 <= i < |run| ==> Lists(run[i], id)) ==>
              Stored(run[|run| - 1], id) == Stored(run[0], id)
                  && Media(run[|run| - 1], id, hash) == Media(run[0], id, hash)
  {
    hide Session, Recoverable, Recovers, Stored, Media, Reserved;
    if |run| > 1 {
      var n := |run| - 1;
      ArchiveSurvives(run[..n], limits, hash);
      SessionKeepsEntries(run[n - 1], run[n], limits, hash);
      forall id | forall i :: 0 <= i < |run| ==> Lists(run[i], id)
        ensures Stored(run[n], id) == Stored(run[0], id) && Media(run[n], id, hash) == Media(run[0], id, hash)
      {
        assert forall i :: 0 <= i < n ==> Lists(run[..n][i], id);
        assert Lists(run[n - 1], id) && Lists(run[n], id);
      }
    }
  }
}
