/**
 * What clearing an archive is good for: the generations of before a clear stay out of reach, for the session that
 * cleared and for those that come after it, and exactly when they do not.
 */
module ArchiveClearing {
  import opened Common
  import opened SnapshotCodec
  import opened CatalogCodec
  import opened ArchiveWorker

  // ----- retired generations stay out of reach

  /**
   * The next opening of slot `x` gets a generation that is not of the `past`: a reset comes first, or the retirement of
   * its generation is on record, or the registry has bound it to another generation or to none.
   */
  predicate Retired(r: Registry, x: nat, past: set<nat>) {
    r.resetPending || x in r.retiring || (x in r.bindings ==> r.bindings[x].generation !in past)
  }

  /** They are retired, or will be before the slot's session gets anything, or it asks for a new generation. */
  predicate Guarded(slot: Slot, r: Registry, x: nat, past: set<nat>) {
    Retired(r, x, past) || slot.clearPending || (slot.freshLogin && slot.vault.None?)
  }

  lemma LoggedOutRetires(r: Registry, h: Handle, luck: Luck, x: nat, past: set<nat>)
    ensures Retired(r, x, past) ==> Retired(LoggedOut(r, h, luck).0, x, past)
    ensures LoggedOut(r, h, luck).1 ==> Retired(LoggedOut(r, h, luck).0, h.slot, past)
  {
  }

  lemma ResetRetires(r: Registry, luck: Luck, x: nat, past: set<nat>)
    ensures Retired(r, x, past) ==> Retired(Reset(r, luck).0, x, past)
  {
  }

  lemma ClearStageRetires(slot: Slot, r: Registry, h: Handle, luck: Luck, x: nat, past: set<nat>)
    requires RegistryOk(r) && SlotOk(slot, r, h.slot)
    ensures var (next, registry, ok) := ClearStage(slot, r, h, luck);
            && (Retired(r, x, past) ==> Retired(registry, x, past)) && (!ok ==> next.clearPending)
            && (ok && slot.clearPending ==> Retired(registry, h.slot, past))
  {
    ResetRetires(r, luck, x, past);
    var reset := Reset(r, luck).0;
    LoggedOutRetires(reset, h, luck, x, past);
    hide Reset, LoggedOut, Retired, RegistryOk, SlotOk;
  }

  lemma OpenStageRetires(slot: Slot, r: Registry, h: Handle, luck: Luck, x: nat, past: set<nat>)
    requires RegistryOk(r) && SlotOk(slot, r, h.slot) && luck.generation !in r.used && past <= r.used
    ensures var (next, registry, ok) := OpenStage(slot, r, h, luck);
            && (Retired(r, x, past) ==> Retired(registry, x, past))
            && (ok && (Retired(r, h.slot, past) || (slot.freshLogin && slot.vault.None?)) ==>
                  next.vault.Some? && next.vault.value.generation !in past && Retired(registry, h.slot, past))
            && (!ok ==> next == slot)
  {
  }

  /**
   * Whatever happens on the way to an archive, a guarded slot stays guarded and only a generation that is not of the
   * past is reached; no other slot loses what it has retired.
   */
  lemma ReachedIsGuarded(slot: Slot, r: Registry, h: Handle, luck: Luck, x: nat, past: set<nat>)
    requires RegistryOk(r) && SlotOk(slot, r, h.slot) && slot.session == Some(h) && luck.generation !in r.used
    requires past <= r.used
    ensures var (next, registry, ok) := Reached(slot, r, h, luck);
            && (Retired(r, x, past) ==> Retired(registry, x, past))
            && (Guarded(slot, r, h.slot, past) ==> Guarded(next, registry, h.slot, past))
            && (ok && Guarded(slot, r, h.slot, past) ==>
                  next.vault.Some? && next.vault.value.generation !in past && Retired(registry, h.slot, past))
  {
    hide *;
    ClearStageMoves(slot, r, h, luck);
    ClearStageRetires(slot, r, h, luck, x, past);
    ClearStageRetires(slot, r, h, luck, h.slot, past);
    var (cleared, r1, first) := ClearStage(slot, r, h, luck);
    ReachedOf(slot, r, h, luck);
    if first {
      ClearStageKeepsSession(slot, r, h, luck);
      MovesOk(r, r1, h.slot);
      OpenStageMoves(cleared, r1, h, luck);
      OpenStageRetires(cleared, r1, h, luck, x, past);
      OpenStageRetires(cleared, r1, h, luck, h.slot, past);
      var (vaulted, r2, second) := OpenStage(cleared, r1, h, luck);
      GuardedParts(slot, r, h.slot, past);
      GuardedParts(vaulted, r2, h.slot, past);
      if second {
        ReadyKeeps(vaulted, r2, h.slot, luck);
        GuardedParts(ReadyStage(vaulted, luck).0, r2, h.slot, past);
      }
    } else {
      GuardedParts(slot, r, h.slot, past);
      GuardedParts(cleared, r1, h.slot, past);
    }
  }

  lemma GuardedParts(slot: Slot, r: Registry, x: nat, past: set<nat>)
    ensures Guarded(slot, r, x, past) <==>
              Retired(r, x, past) || slot.clearPending || (slot.freshLogin && slot.vault.None?)
  {
  }

  // ----- what a clear is good for

  /** Since entry `n` of the log no generation of `past` has been reached in slot `x`. */
  ghost predicate Spared(log: seq<Entry>, n: nat, x: nat, past: set<nat>) {
    && n <= |log|
    && forall k :: n <= k < |log| && log[k].ticket.handle.slot == x && log[k].vault.Some? ==>
         log[k].vault.value.generation !in past
  }

  ghost predicate Holds(s: State, n: nat, x: nat, past: set<nat>) {
    && x < |s.cabinet.slots| && past <= s.cabinet.registry.used && Spared(s.cabinet.log, n, x, past)
    && (s.desk.running.Exited? || Guarded(s.cabinet.slots[x], s.cabinet.registry, x, past))
  }

  /** The worker takes up a new session of slot `x`, which forgets a clear that is still pending. */
  predicate Reseats(s: State, a: Action, x: nat) {
    a.Manage? && s.desk.running.Busy? && s.desk.running.job.AttachJob? && s.desk.running.job.handle.slot == x
  }

  lemma UsedIsGuarded(c: Cabinet, job: Job, luck: Luck, x: nat, past: set<nat>)
    requires VaultInv(c) && Ticketed(job) && job.ticket.handle.slot < |c.slots| && luck.generation !in c.registry.used
    requires past <= c.registry.used
    requires c.slots[job.ticket.handle.slot].session == Some(job.ticket.handle) && x < |c.slots|
    requires Guarded(Marked(c.slots[x], job), c.registry, x, past)
    requires x != job.ticket.handle.slot ==> Guarded(c.slots[x], c.registry, x, past)
    ensures var d := Used(c, job, luck);
            && |d.slots| == |c.slots| && |d.log| == |c.log| + 1 && d.log[..|c.log|] == c.log
            && d.log[|c.log|].ticket == job.ticket
            && Guarded(d.slots[x], d.registry, x, past) && past <= d.registry.used
            && (x == job.ticket.handle.slot && d.log[|c.log|].vault.Some? ==>
                  d.log[|c.log|].vault.value.generation !in past && Retired(d.registry, x, past))
  {
    var h, d := job.ticket.handle, Used(c, job, luck);
    var before := Marked(c.slots[h.slot], job);
    UsedParts(c, job, luck);
    MarkedIsOk(c.slots[h.slot], job, c.registry, h.slot);
    ReachedMoves(before, c.registry, h, luck);
    ReachedIsGuarded(before, c.registry, h, luck, x, past);
    var (slot, registry, ok) := Reached(before, c.registry, h, luck);
    hide Used, Reached, RegistryOk, SlotOk, Retired;
  }

  lemma ManagedIsGuarded(c: Cabinet, job: Job, luck: Luck, x: nat, past: set<nat>)
    requires VaultInv(c) && !Ticketed(job) && (!job.ForgetJob? ==> job.handle.slot < |c.slots|) && x < |c.slots|
    requires past <= c.registry.used
    requires Guarded(c.slots[x], c.registry, x, past)
    requires job.AttachJob? && job.handle.slot == x ==> Retired(c.registry, x, past)
    ensures var d := Managed(c, job, luck);
            && |d.slots| == |c.slots| && d.log == c.log && Guarded(d.slots[x], d.registry, x, past)
            && past <= d.registry.used
            && (Retired(c.registry, x, past) ==> Retired(d.registry, x, past))
  {
    match job {
      case AttachJob(h, _) =>
      case DetachJob(h, _) =>
        ResetMoves(c.registry, h.slot, luck);
        ResetRetires(c.registry, luck, x, past);
        var reset := Reset(c.registry, luck).0;
        LoggedOutMoves(reset, h, luck);
        LoggedOutRetires(reset, h, luck, x, past);
        hide Reset, LoggedOut, Retired;
      case ForgetJob =>
        ResetMoves(c.registry.(resetPending := true), x, luck);
        ResetRetires(c.registry.(resetPending := true), luck, x, past);
        hide Reset;
    }
  }

  lemma HoldsStep(s: State, a: Action, n: nat, x: nat, past: set<nat>)
    requires SeatInv(s) && VaultInv(s.cabinet) && Enabled(s, a) && Holds(s, n, x, past)
    requires Reseats(s, a, x) ==> Retired(s.cabinet.registry, x, past)
    ensures Holds(Step(s, a), n, x, past)
  {
    hide Guarded, Retired, VaultInv, Used, Managed, SeatInv;
    if a.Use? {
      UseIs(s, a.luck);
      RunningJobIsHome(s);
      MarkedIsGuarded(s.cabinet.slots[x], s.desk.running.job, s.cabinet.registry, x, past);
      UsedIsGuarded(s.cabinet, s.desk.running.job, a.luck, x, past);
    } else if a.Manage? {
      ManagedIsGuarded(s.cabinet, s.desk.running.job, a.luck, x, past);
    } else if !OfWorker(a) {
      UiLeavesCabinet(s, a);
      hide Step, Enabled;
    } else {
      hide Passes, IsVisible, AfterAttach, AfterDetach, AfterCapture, AfterRequest, AfterClear, AfterForgetAll;
    }
  }

  lemma MarkedIsGuarded(slot: Slot, job: Job, r: Registry, x: nat, past: set<nat>)
    ensures Guarded(slot, r, x, past) ==> Guarded(Marked(slot, job), r, x, past)
    ensures job.ClearJob? ==> Guarded(Marked(slot, job), r, x, past)
  {
  }

  /** Retired generations stay so: no condition on what sessions come. */
  lemma RetiredStep(s: State, a: Action, x: nat, past: set<nat>)
    requires SeatInv(s) && VaultInv(s.cabinet) && Enabled(s, a) && x < |s.cabinet.slots|
    requires past <= s.cabinet.registry.used
    requires Retired(s.cabinet.registry, x, past)
    ensures Retired(Step(s, a).cabinet.registry, x, past)
  {
    hide Retired, VaultInv, Used, Managed, SeatInv;
    if a.Use? {
      UseIs(s, a.luck);
      RunningJobIsHome(s);
      UsedStaysRetired(s.cabinet, s.desk.running.job, a.luck, x, past);
    } else if a.Manage? {
      RetiredIsGuarded(s.cabinet.slots[x], s.cabinet.registry, x, past);
      ManagedIsGuarded(s.cabinet, s.desk.running.job, a.luck, x, past);
    } else if !OfWorker(a) {
      UiLeavesCabinet(s, a);
      hide Step, Enabled;
    } else {
      hide Passes, IsVisible, AfterAttach, AfterDetach, AfterCapture, AfterRequest, AfterClear, AfterForgetAll;
    }
  }

  lemma RetiredIsGuarded(slot: Slot, r: Registry, x: nat, past: set<nat>)
    requires Retired(r, x, past)
    ensures Guarded(slot, r, x, past)
  {
  }

  lemma UsedStaysRetired(c: Cabinet, job: Job, luck: Luck, x: nat, past: set<nat>)
    requires VaultInv(c) && Ticketed(job) && job.ticket.handle.slot < |c.slots| && luck.generation !in c.registry.used
    requires past <= c.registry.used
    requires c.slots[job.ticket.handle.slot].session == Some(job.ticket.handle) && Retired(c.registry, x, past)
    ensures Retired(Used(c, job, luck).registry, x, past)
  {
    var h := job.ticket.handle;
    UsedParts(c, job, luck);
    MarkedIsOk(c.slots[h.slot], job, c.registry, h.slot);
    ReachedIsGuarded(Marked(c.slots[h.slot], job), c.registry, h, luck, x, past);
    hide Used, Reached, RegistryOk, SlotOk, Retired;
  }

  lemma {:induction false} HoldsOn(states: seq<State>, actions: seq<Action>, slots: nat, p: nat, i: nat, n: nat, x: nat,
      past: set<nat>)
    requires Run(states, actions, slots) && p <= i < |states| && Holds(states[p], n, x, past)
    requires forall r :: p <= r < i && Reseats(states[r], actions[r], x) ==>
                 Retired(states[r].cabinet.registry, x, past)
    ensures Holds(states[i], n, x, past)
    decreases i
  {
    hide *;
    if p < i {
      HoldsOn(states, actions, slots, p, i - 1, n, x, past);
      RunAt(states, actions, slots, i);
      RunKeepsInv(states, actions, slots, i - 1);
      InvParts(states[i - 1]);
      HoldsStep(states[i - 1], actions[i - 1], n, x, past);
    }
  }

  lemma {:induction false} RetiredOn(states: seq<State>, actions: seq<Action>, slots: nat, p: nat, i: nat, x: nat,
      past: set<nat>)
    requires Run(states, actions, slots) && p <= i < |states| && x < |states[p].cabinet.slots|
    requires past <= states[p].cabinet.registry.used
    requires Retired(states[p].cabinet.registry, x, past)
    ensures Retired(states[i].cabinet.registry, x, past) && x < |states[i].cabinet.slots|
    ensures past <= states[i].cabinet.registry.used
    decreases i
  {
    hide *;
    if p < i {
      RetiredOn(states, actions, slots, p, i - 1, x, past);
      RunAt(states, actions, slots, i);
      RunKeepsInv(states, actions, slots, i - 1);
      InvParts(states[i - 1]);
      RetiredStep(states[i - 1], actions[i - 1], x, past);
      CabinetGrows(states[i - 1], actions[i - 1]);
    }
  }

  lemma CabinetGrows(s: State, a: Action)
    requires SeatInv(s) && VaultInv(s.cabinet) && Enabled(s, a)
    ensures |Step(s, a).cabinet.slots| == |s.cabinet.slots|
    ensures s.cabinet.registry.used <= Step(s, a).cabinet.registry.used
  {
    hide VaultInv, Used, Managed, SeatInv;
    if a.Use? {
      UseIs(s, a.luck);
      RunningJobIsHome(s);
      UsedGrows(s.cabinet, s.desk.running.job, a.luck);
    } else if a.Manage? {
      ManagedGrows(s.cabinet, s.desk.running.job, a.luck);
    } else if !OfWorker(a) {
      UiLeavesCabinet(s, a);
      hide Step, Enabled;
    } else {
      hide Passes, IsVisible, AfterAttach, AfterDetach, AfterCapture, AfterRequest, AfterClear, AfterForgetAll;
    }
  }

  lemma UsedGrows(c: Cabinet, job: Job, luck: Luck)
    requires VaultInv(c) && Ticketed(job) && job.ticket.handle.slot < |c.slots| && luck.generation !in c.registry.used
    requires c.slots[job.ticket.handle.slot].session == Some(job.ticket.handle)
    ensures |Used(c, job, luck).slots| == |c.slots| && c.registry.used <= Used(c, job, luck).registry.used
  {
    var h := job.ticket.handle;
    UsedParts(c, job, luck);
    MarkedIsOk(c.slots[h.slot], job, c.registry, h.slot);
    ReachedMoves(Marked(c.slots[h.slot], job), c.registry, h, luck);
    hide Used, Reached, RegistryOk, SlotOk;
  }

  lemma ManagedGrows(c: Cabinet, job: Job, luck: Luck)
    requires !Ticketed(job) && (!job.ForgetJob? ==> job.handle.slot < |c.slots|)
    ensures |Managed(c, job, luck).slots| == |c.slots| && Managed(c, job, luck).registry.used == c.registry.used
  {
  }

  /** The turn of a clear that is worked on: its slot, and the generations there had been until then. */
  predicate Clears(s: State, a: Action) { a.Use? && s.desk.running.Busy? && s.desk.running.job.ClearJob? }

  lemma ClearedAtOnce(s: State, luck: Luck)
    requires SeatInv(s) && VaultInv(s.cabinet) && Enabled(s, Use(luck)) && Clears(s, Use(luck))
    ensures var x, past, n := s.desk.running.job.ticket.handle.slot, s.cabinet.registry.used, |s.cabinet.log|;
            var t := Step(s, Use(luck));
            && Holds(t, n, x, past) && |t.cabinet.log| == n + 1 && t.cabinet.log[n].ticket == s.desk.running.job.ticket
            && (t.cabinet.log[n].vault.Some? ==> Retired(t.cabinet.registry, x, past))
  {
    var x, past := s.desk.running.job.ticket.handle.slot, s.cabinet.registry.used;
    UseIs(s, luck);
    RunningJobIsHome(s);
    MarkedIsGuarded(s.cabinet.slots[x], s.desk.running.job, s.cabinet.registry, x, past);
    UsedIsGuarded(s.cabinet, s.desk.running.job, luck, x, past);
    hide VaultInv, Used, Guarded, Retired, SeatInv, Marked;
  }

  /**
   * A clear that was worked on, even without success, holds for every later session of its slot, provided that
   * whenever a session is attached there, the generations of before the clear have been retired by then.
   */
  lemma ClearHolds(states: seq<State>, actions: seq<Action>, slots: nat, p: nat, i: nat, k: nat)
    requires Run(states, actions, slots) && p < i < |states| && Clears(states[p], actions[p])
    requires var x, past := states[p].desk.running.job.ticket.handle.slot, states[p].cabinet.registry.used;
             && (forall r :: p < r < i && Reseats(states[r], actions[r], x) ==>
                  Retired(states[r].cabinet.registry, x, past))
             && |states[p].cabinet.log| <= k < |states[i].cabinet.log|
             && states[i].cabinet.log[k].ticket.handle.slot == x
             && states[i].cabinet.log[k].vault.Some?
    ensures states[i].cabinet.log[k].vault.value.generation !in states[p].cabinet.registry.used
  {
    hide Run, Holds, Retired, Spared, Reseats;
    var x, past, n := states[p].desk.running.job.ticket.handle.slot, states[p].cabinet.registry.used,
        |states[p].cabinet.log|;
    ClearedInRun(states, actions, slots, p);
    HoldsOn(states, actions, slots, p + 1, i, n, x, past);
    HoldsFor(states[i], n, x, past, k);
  }

  lemma ClearedInRun(states: seq<State>, actions: seq<Action>, slots: nat, p: nat)
    requires Run(states, actions, slots) && p + 1 < |states| && Clears(states[p], actions[p])
    ensures states[p].desk.running.Busy? && states[p].desk.running.job.ClearJob?
    ensures var x, past, n, t := states[p].desk.running.job.ticket.handle.slot, states[p].cabinet.registry.used,
                  |states[p].cabinet.log|, states[p + 1];
            && Holds(t, n, x, past) && |t.cabinet.log| == n + 1
            && t.cabinet.log[n].ticket == states[p].desk.running.job.ticket
            && (t.cabinet.log[n].vault.Some? ==> Retired(t.cabinet.registry, x, past))
  {
    hide Run, Step, Enabled, Holds, Retired, SeatInv, VaultInv;
    RunAt(states, actions, slots, p + 1);
    RunKeepsInv(states, actions, slots, p);
    InvParts(states[p]);
    ClearedAtOnce(states[p], actions[p].luck);
  }

  lemma HoldsFor(s: State, n: nat, x: nat, past: set<nat>, k: nat)
    requires Holds(s, n, x, past) && n <= k < |s.cabinet.log| && s.cabinet.log[k].ticket.handle.slot == x
    requires s.cabinet.log[k].vault.Some?
    ensures s.cabinet.log[k].vault.value.generation !in past
  {
    hide Guarded;
  }

  /** After a clear that succeeded, no session of its slot ever reaches a generation there was before it. */
  lemma SuccessfulClearIsForever(states: seq<State>, actions: seq<Action>, slots: nat, p: nat, i: nat, k: nat)
    requires Run(states, actions, slots) && p < i < |states| && Clears(states[p], actions[p])
    requires |states[p + 1].cabinet.log| == |states[p].cabinet.log| + 1
    requires states[p + 1].cabinet.log[|states[p].cabinet.log|].vault.Some?
    requires |states[p].cabinet.log| <= k < |states[i].cabinet.log| && states[i].cabinet.log[k].vault.Some?
    requires states[i].cabinet.log[k].ticket.handle.slot == states[p].desk.running.job.ticket.handle.slot
    ensures states[i].cabinet.log[k].vault.value.generation !in states[p].cabinet.registry.used
  {
    hide *;
    ClearedInRun(states, actions, slots, p);
    var x, past := states[p].desk.running.job.ticket.handle.slot, states[p].cabinet.registry.used;
    HoldsParts(states[p + 1], |states[p].cabinet.log|, x, past);
    forall r | p < r < i ensures Retired(states[r].cabinet.registry, x, past) {
      RetiredOn(states, actions, slots, p + 1, r, x, past);
    }
    ClearHolds(states, actions, slots, p, i, k);
  }

  lemma HoldsParts(s: State, n: nat, x: nat, past: set<nat>)
    requires Holds(s, n, x, past)
    ensures x < |s.cabinet.slots| && past <= s.cabinet.registry.used && Spared(s.cabinet.log, n, x, past)
  {
    hide Guarded, Spared;
  }

  /** Slot `x` has no session older than `id`, and gets none. */
  ghost predicate Younger(s: State, x: nat, id: nat) {
    && x < |s.cabinet.slots| && (s.cabinet.slots[x].session.Some? ==> s.cabinet.slots[x].session.value.id >= id)
    && id <= |s.ui.sessions|
    && forall job :: job in Pending(s.desk) && job.AttachJob? && job.handle.slot == x ==> job.handle.id >= id
  }

  lemma YoungerStepOfUi(s: State, a: Action, x: nat, id: nat)
    requires Enabled(s, a) && !OfWorker(a) && Younger(s, x, id)
    ensures Younger(Step(s, a), x, id)
  {
    hide Step, Enabled;
    UiLeavesCabinet(s, a);
    SessionsGrow(s, a);
    QueueGrows(s, a);
    var earlier, jobs := Pending(s.desk), Pending(Step(s, a).desk);
    forall job | job in jobs && job.AttachJob? && job.handle.slot == x ensures job.handle.id >= id {
      var k :| 0 <= k < |jobs| && jobs[k] == job;
      if k < |earlier| { assert earlier[k] == job; }
    }
  }

  lemma YoungerStepOfWorker(s: State, a: Action, x: nat, id: nat)
    requires SeatInv(s) && Housed(s.cabinet) && Enabled(s, a) && OfWorker(a) && Younger(s, x, id)
    ensures Younger(Step(s, a), x, id)
  {
    hide Used, Managed, SeatInv, Passes, IsVisible, AfterAttach, AfterDetach, AfterCapture, AfterRequest, AfterClear;
    hide AfterForgetAll, AfterDestroy;
    if a.Use? {
      UsedKeepsSessions(s.cabinet, s.desk.running.job, a.luck);
    } else if a.Manage? {
      ManagedSeats(s.cabinet, s.desk.running.job, a.luck);
      assert s.desk.running.job in Pending(s.desk);
    }
  }

  lemma YoungerStep(s: State, a: Action, x: nat, id: nat)
    requires SeatInv(s) && Housed(s.cabinet) && Enabled(s, a) && Younger(s, x, id)
    ensures Younger(Step(s, a), x, id)
  {
    hide *;
    if OfWorker(a) {
      YoungerStepOfWorker(s, a, x, id);
    } else {
      YoungerStepOfUi(s, a, x, id);
    }
  }

  lemma {:induction false} YoungerOn(states: seq<State>, actions: seq<Action>, slots: nat, p: nat, i: nat, x: nat,
      id: nat)
    requires Run(states, actions, slots) && p <= i < |states| && Younger(states[p], x, id)
    ensures Younger(states[i], x, id)
    decreases i
  {
    hide *;
    if p < i {
      YoungerOn(states, actions, slots, p, i - 1, x, id);
      RunAt(states, actions, slots, i);
      RunKeepsInv(states, actions, slots, i - 1);
      InvParts(states[i - 1]);
      YoungerStep(states[i - 1], actions[i - 1], x, id);
    }
  }

  /** A session attached after others have been served is younger than all of them, and so is whatever follows it. */
  lemma ReseatedIsYounger(s: State, luck: Luck, x: nat)
    requires SeatInv(s) && Housed(s.cabinet) && AttachInv(s) && Enabled(s, Manage(luck)) && Reseats(s, Manage(luck), x)
    ensures Younger(Step(s, Manage(luck)), x, s.desk.running.job.handle.id)
    ensures Below(s.cabinet, s.desk.running.job.handle.id)
  {
    hide Managed, SeatInv, Below;
    ManagedSeats(s.cabinet, s.desk.running.job, luck);
    var jobs, t := Pending(s.desk), Step(s, Manage(luck));
    assert jobs[0] == s.desk.running.job && x < |s.cabinet.slots|;
    forall job | job in Pending(t.desk) && job.AttachJob? && job.handle.slot == x
      ensures job.handle.id >= s.desk.running.job.handle.id
    {
      var k :| 0 <= k < |Pending(t.desk)| && Pending(t.desk)[k] == job;
      assert jobs[k + 1] == job;
    }
  }

  lemma {:induction false} LogGrows(states: seq<State>, actions: seq<Action>, slots: nat, p: nat, i: nat)
    requires Run(states, actions, slots) && p <= i < |states|
    ensures states[p].cabinet.log <= states[i].cabinet.log
    decreases i
  {
    hide *;
    if p < i {
      LogGrows(states, actions, slots, p, i - 1);
      RunAt(states, actions, slots, i);
      LogStep(states[i - 1], actions[i - 1]);
    }
  }

  lemma LogStep(s: State, a: Action)
    requires Enabled(s, a)
    ensures s.cabinet.log <= Step(s, a).cabinet.log
  {
    hide Reached, Reset, LoggedOut, IsId, Emptied, Unseated, Passes, IsVisible;
  }

  /**
   * Once a clear has run, even one that failed, its own session never again reaches a generation there was before:
   * no capture admitted before a clear ever shows up in what the session sees after it.
   */
  lemma ClearedArchiveIsGone(states: seq<State>, actions: seq<Action>, slots: nat, p: nat, q: nat)
    requires Run(states, actions, slots) && p <= q < |actions| && Clears(states[p], actions[p])
    requires actions[q].Use? && states[q].desk.running.job.ticket.handle == states[p].desk.running.job.ticket.handle
    ensures var log := states[q + 1].cabinet.log;
            |log| == |states[q].cabinet.log| + 1
                && (log[|log| - 1].vault.Some? ==>
                log[|log| - 1].vault.value.generation !in states[p].cabinet.registry.used)
  {
    hide Starts, Step, Enabled, Holds, Retired, Reseats;
    var h := states[p].desk.running.job.ticket.handle;
    ClearedInRun(states, actions, slots, p);
    RunAt(states, actions, slots, q + 1);
    UseIsLogged(states[q], actions[q].luck);
    LogGrows(states, actions, slots, p, q);
    forall r | p < r < q + 1 ensures !Reseats(states[r], actions[r], h.slot) {
      NoReseatBetween(states, actions, slots, p, r, q);
    }
    var log := states[q + 1].cabinet.log;
    if log[|log| - 1].vault.Some? {
      ClearHolds(states, actions, slots, p, q + 1, |log| - 1);
    }
  }

  lemma UseIsLogged(s: State, luck: Luck)
    requires Enabled(s, Use(luck))
    ensures s.desk.running.Busy? && Ticketed(s.desk.running.job) && !s.desk.running.job.AttachJob?
    ensures var log := Step(s, Use(luck)).cabinet.log;
            log == s.cabinet.log + [log[|s.cabinet.log|]] && log[|s.cabinet.log|].ticket == s.desk.running.job.ticket
  {
    hide Reached;
  }

  lemma NoReseatBetween(states: seq<State>, actions: seq<Action>, slots: nat, p: nat, r: nat, q: nat)
    requires Run(states, actions, slots) && p < r <= q < |actions| && Clears(states[p], actions[p])
    requires actions[q].Use? && states[q].desk.running.Busy? && Ticketed(states[q].desk.running.job)
    requires states[q].desk.running.job.ticket.handle == states[p].desk.running.job.ticket.handle
    ensures !Reseats(states[r], actions[r], states[p].desk.running.job.ticket.handle.slot)
  {
    hide Starts, Step, Enabled, Holds, Retired, Reseats, Inv, DeskInv, UiInv, SeatInv, Housed, VaultInv, AttachInv;
    hide Below, Younger;
    var h := states[p].desk.running.job.ticket.handle;
    if Reseats(states[r], actions[r], h.slot) {
      ReseatedInRun(states, actions, slots, r, h.slot);
      var id := states[r].desk.running.job.handle.id;
      ClearedInRun(states, actions, slots, p);
      LogGrows(states, actions, slots, p + 1, r);
      StillUsing(states, actions, slots, r, q, h.slot);
      YoungerOn(states, actions, slots, r + 1, q, h.slot, id);
      Outlived(states[r].cabinet, states[q], |states[p].cabinet.log|, h, id);
      assert false;
    }
  }

  lemma ReseatedInRun(states: seq<State>, actions: seq<Action>, slots: nat, r: nat, x: nat)
    requires Run(states, actions, slots) && r < |actions| && Reseats(states[r], actions[r], x)
    ensures states[r].desk.running.Busy? && states[r].desk.running.job.AttachJob?
    ensures Younger(states[r + 1], x, states[r].desk.running.job.handle.id)
    ensures Below(states[r].cabinet, states[r].desk.running.job.handle.id)
  {
    hide Starts, Step, Enabled, Inv, DeskInv, UiInv, SeatInv, Housed, VaultInv, AttachInv, Below, Younger;
    RunAt(states, actions, slots, r + 1);
    RunKeepsInv(states, actions, slots, r);
    InvParts(states[r]);
    ReseatedIsYounger(states[r], actions[r].luck, x);
  }

  /** The job in use after `r` finds its session, and it is not the step `r` itself. */
  lemma StillUsing(states: seq<State>, actions: seq<Action>, slots: nat, r: nat, q: nat, x: nat)
    requires Run(states, actions, slots) && r <= q < |actions| && Reseats(states[r], actions[r], x)
    requires actions[q].Use? && states[q].desk.running.Busy? && Ticketed(states[q].desk.running.job)
    ensures r < q
    ensures var h := states[q].desk.running.job.ticket.handle;
              h.slot < |states[q].cabinet.slots| && states[q].cabinet.slots[h.slot].session == Some(h)
  {
    hide Starts, Step, Enabled, Inv, DeskInv, UiInv, SeatInv, Housed, VaultInv, AttachInv;
    RunKeepsInv(states, actions, slots, q);
    InvParts(states[q]);
    RunningJobIsHome(states[q]);
  }

  lemma Outlived(c: Cabinet, s: State, n: nat, h: Handle, id: nat)
    requires Below(c, id) && n < |c.log| && c.log[n].ticket.handle == h && Younger(s, h.slot, id)
    ensures s.cabinet.slots[h.slot].session != Some(h)
  {
  }

  // ----- a clear that is never carried out

  /** Runs a list of actions that are all possible. */
  ghost predicate Leads(s: State, actions: seq<Action>, t: State)
    decreases |actions|
  {
    if actions == [] then t == s else Enabled(s, actions[0]) && Leads(Step(s, actions[0]), actions[1..], t)
  }

  lemma OneMore(s: State, a: Action, rest: seq<Action>, t: State)
    requires Enabled(s, a) && Leads(Step(s, a), rest, t)
    ensures Leads(s, [a] + rest, t)
  {
    assert ([a] + rest)[1..] == rest;
  }

  /** A registry that binds a generation to the account in slot 0. */
  function Bound(owner: nat, account: Bytes, generation: nat): State {
    Initial(1, map[0 := Binding(owner, account, generation)], {generation}, {})
  }

  lemma Two(s: State, a: Action, b: Action) returns (t: State)
    requires Enabled(s, a) && Enabled(Step(s, a), b)
    ensures t == Step(Step(s, a), b) && Leads(s, [a, b], t)
  {
    hide Enabled, Step;
    t := Step(Step(s, a), b);
    assert Leads(t, [], t);
    OneMore(Step(s, a), b, [], t);
    OneMore(s, a, [b], t);
    assert [a] + [b] == [a, b] && [b] + [] == [b];
  }

  /** The worker's whole turn on a job without a ticket. */
  lemma TurnOfManaged(s: State, luck: Luck) returns (t: State)
    requires s.desk.running.Resting? && s.desk.queue != [] && !Ticketed(s.desk.queue[0])
    requires InRange(s.desk.queue[0], |s.cabinet.slots|)
    ensures t == s.(desk := s.desk.(queue := s.desk.queue[1..]), cabinet := Managed(s.cabinet, s.desk.queue[0], luck),
                clock := s.clock + 2)
    ensures Leads(s, [Pop, Manage(luck)], t)
  {
    hide Managed, Leads;
    t := Two(s, Pop, Manage(luck));
  }

  lemma {:induction false} LeadsFurther(s: State, first: seq<Action>, t: State, second: seq<Action>, u: State)
    requires Leads(s, first, t) && Leads(t, second, u)
    ensures Leads(s, first + second, u)
    decreases |first|
  {
    if first == [] {
      assert first + second == second;
    } else {
      LeadsFurther(Step(s, first[0]), first[1..], t, second, u);
      OneMore(s, first[0], first[1..] + second, u);
      assert [first[0]] + (first[1..] + second) == first + second;
    }
  }

  /** The worker's whole turn on a clear whose session is no longer current: nothing is retired. */
  lemma TurnOfRevokedClear(s: State) returns (t: State)
    requires s.desk.running.Resting? && s.desk.queue != [] && s.desk.queue[0].ClearJob?
    requires !IsCurrent(s.ui, s.desk.queue[0].ticket)
    ensures t == s.(desk := s.desk.(queue := s.desk.queue[1..]), clock := s.clock + 4)
    ensures Leads(s, [Pop, Check] + [ReleaseBytes, Release], t)
  {
    hide IsCurrent, IsVisible, Leads;
    var checked := Two(s, Pop, Check);
    assert checked == s.(desk := s.desk.(queue := s.desk.queue[1..], running := Busy(s.desk.queue[0], Wiping)),
        clock := s.clock + 2);
    t := Two(checked, ReleaseBytes, Release);
    LeadsFurther(s, [Pop, Check], checked, [ReleaseBytes, Release], t);
  }

  /**
   * A session that has just been attached, without a fresh login, opens the generation the registry has kept for its
   * account.
   */
  lemma ReopensBinding(c: Cabinet, h: Handle, ticket: Ticket, luck: Luck)
    requires |c.slots| > h.slot && c.slots[h.slot] == Slot(Some(h), None, false, false, false, false)
    requires ticket.handle == h
    requires h.slot in c.registry.bindings && c.registry.bindings[h.slot].owner == h.owner
    requires c.registry.bindings[h.slot].authorization == h.authorization
    requires !c.registry.resetPending && h.slot !in c.registry.retiring && luck.open && luck.archive
    ensures Used(c, RequestJob(ticket), luck).log == c.log
                + [Entry(ticket, false,
                Some(Vault(h.slot, h.owner, h.authorization, c.registry.bindings[h.slot].generation)))]
  {
  }

  lemma LeadsNowhere(s: State)
    ensures Leads(s, [], s)
  {
  }

  // ----- exactly when the generations of the past are out of reach

  /** A continuation in which some session of slot `x` reaches a generation of the past. */
  ghost predicate Reopens(s: State, more: seq<Action>, t: State, x: nat, past: set<nat>) {
    && Leads(s, more, t)
    && exists k :: |s.cabinet.log| <= k < |t.cabinet.log| && ReachesPast(t.cabinet.log[k], x, past)
  }

  predicate ReachesPast(e: Entry, x: nat, past: set<nat>) {
    e.ticket.handle.slot == x && e.vault.Some? && e.vault.value.generation in past
  }

  predicate AtRest(s: State) { s.desk.running.Resting? && s.desk.queue == [] && !s.desk.stopping }

  lemma {:induction false} RetiredAhead(s: State, more: seq<Action>, t: State, n: nat, x: nat, past: set<nat>)
    requires Inv(s) && Leads(s, more, t) && Retired(s.cabinet.registry, x, past) && Holds(s, n, x, past)
    ensures Holds(t, n, x, past)
    decreases |more|
  {
    hide Inv, Enabled, Step, Holds, Retired, SeatInv, VaultInv, UiInv, DeskInv, Housed, AttachInv, Legit;
    if more != [] {
      InvParts(s);
      HoldsParts(s, n, x, past);
      HoldsStep(s, more[0], n, x, past);
      RetiredStep(s, more[0], x, past);
      StepKeepsInv(s, more[0]);
      RetiredAhead(Step(s, more[0]), more[1..], t, n, x, past);
    }
  }

  lemma RetiredIsSafe(s: State, more: seq<Action>, t: State, x: nat, past: set<nat>)
    requires Inv(s) && x < |s.cabinet.slots| && past <= s.cabinet.registry.used && Retired(s.cabinet.registry, x, past)
    ensures !Reopens(s, more, t, x, past)
  {
    hide Leads, Inv, Retired;
    if Leads(s, more, t) {
      RetiredAhead(s, more, t, |s.cabinet.log|, x, past);
    }
    hide Guarded;
  }

  lemma Fresh(used: set<nat>) returns (generation: nat)
    ensures forall u :: u in used ==> u < generation
  {
    if used == {} {
      generation := 0;
    } else {
      var u :| u in used;
      var rest := Fresh(used - {u});
      generation := if rest <= u then u + 1 else rest;
      forall v | v in used ensures v < generation {
        if v != u { assert v in used - {u}; }
      }
    }
  }

  /** A new session of slot `x`, attached to an idle worker and taken up by it. */
  predicate TakenUp(s: State, u: State, h: Handle) {
    && AtRest(u) && u.desk.counters == s.desk.counters && u.ui.gate == s.ui.gate && h.slot < |u.cabinet.slots|
    && u.cabinet.slots[h.slot] == Slot(Some(h), None, false, false, false, false)
    && u.cabinet.registry == s.cabinet.registry
    && u.cabinet.log == s.cabinet.log && h.id < |u.ui.sessions| && u.ui.sessions[h.id] == Session(h, true, false, 0)
  }

  lemma AttachmentRun(s: State, x: nat, owner: nat, authorization: Bytes) returns (actions: seq<Action>, u: State)
    requires UiInv(s.ui) && AtRest(s) && x < |s.cabinet.slots| == |s.ui.seats| && Attachable(owner, authorization)
    ensures Leads(s, actions, u) && TakenUp(s, u, Handle(|s.ui.sessions|, x, owner, authorization))
  {
    var h := Handle(|s.ui.sessions|, x, owner, authorization);
    var attach := Attach(x, owner, false, authorization);
    var luck := Luck(true, {}, true, true, true, true, {}, 0, true, true, true, false);
    var t, job := AttachedIdle(s, x, owner, authorization);
    hide *;
    var turn := [Pop, Manage(luck)];
    OneStep(s, attach, t);
    if job.Some? {
      var d := TurnOfDetached(t, job.value, h, luck);
      var v := TurnOfAttached(d, h, luck);
      LeadsFurther(s, [attach], t, turn, d);
      LeadsFurther(s, [attach] + turn, d, turn, v);
      actions, u := [attach] + turn + turn, v;
      TakenUpNow(s, t, d, v, h);
    } else {
      var v := TurnOfAttached(t, h, luck);
      LeadsFurther(s, [attach], t, turn, v);
      actions, u := [attach] + turn, v;
      TakenUpNow(s, t, t, v, h);
    }
  }

  lemma OneStep(s: State, a: Action, t: State)
    requires Enabled(s, a) && t == Step(s, a)
    ensures Leads(s, [a], t)
  {
    hide Enabled, Step;
    LeadsNowhere(t);
    OneMore(s, a, [], t);
    assert [a] + [] == [a];
  }

  /** The queue after the attachment: the old session, if there was one, and the new one. */
  predicate Attached(s: State, t: State, h: Handle, replaced: Option<Handle>) {
    && t.desk.queue == (if replaced.Some? then [DetachJob(replaced.value, false), AttachJob(h, false)]
         else [AttachJob(h, false)])
    && t.desk.running.Resting? && !t.desk.stopping && t.desk.counters == s.desk.counters && t.cabinet == s.cabinet
    && t.ui.gate == s.ui.gate
    && h.id < |t.ui.sessions| && t.ui.sessions[h.id] == Session(h, true, false, 0) && h.slot < |s.cabinet.slots|
    && (replaced.Some? ==> replaced.value.slot == h.slot)
  }

  lemma AttachedIdle(s: State, x: nat, owner: nat, authorization: Bytes) returns (t: State, job: Option<Handle>)
    requires UiInv(s.ui) && AtRest(s) && x < |s.cabinet.slots| == |s.ui.seats| && Attachable(owner, authorization)
    ensures var a := Attach(x, owner, false, authorization); Enabled(s, a) && t == Step(s, a)
    ensures Attached(s, t, Handle(|s.ui.sessions|, x, owner, authorization), job)
  {
    hide IsId;
    t := Step(s, Attach(x, owner, false, authorization));
    job := s.ui.seats[x];
    if job.Some? {
      SeatedAt(s.ui, x);
    }
    hide UiInv;
  }

  lemma TurnOfDetached(t: State, gone: Handle, h: Handle, luck: Luck) returns (d: State)
    requires t.desk.running.Resting? && t.desk.queue == [DetachJob(gone, false), AttachJob(h, false)]
    requires gone.slot == h.slot < |t.cabinet.slots|
    ensures Leads(t, [Pop, Manage(luck)], d) && d.desk == t.desk.(queue := [AttachJob(h, false)]) && d.ui == t.ui
    ensures |d.cabinet.slots| == |t.cabinet.slots| && d.cabinet.registry == t.cabinet.registry
    ensures d.cabinet.log == t.cabinet.log
  {
    hide Leads;
    d := TurnOfManaged(t, luck);
  }

  lemma TurnOfAttached(t: State, h: Handle, luck: Luck) returns (v: State)
    requires t.desk.running.Resting? && t.desk.queue == [AttachJob(h, false)] && h.slot < |t.cabinet.slots|
    ensures Leads(t, [Pop, Manage(luck)], v) && v.desk == t.desk.(queue := []) && v.ui == t.ui
    ensures v.cabinet == t.cabinet.(slots := t.cabinet.slots[h.slot := Slot(Some(h), None, false, false, false, false)])
  {
    hide Leads;
    v := TurnOfManaged(t, luck);
  }

  lemma TakenUpNow(s: State, t: State, d: State, v: State, h: Handle)
    requires exists gone :: Attached(s, t, h, gone)
    requires d.ui == t.ui && d.desk.counters == t.desk.counters && d.desk.stopping == t.desk.stopping
    requires d.desk.running == t.desk.running
    requires d.cabinet.registry == t.cabinet.registry && d.cabinet.log == t.cabinet.log
    requires |d.cabinet.slots| == |t.cabinet.slots|
    requires v.desk == d.desk.(queue := []) && v.ui == d.ui
    requires h.slot < |d.cabinet.slots|
    requires v.cabinet == d.cabinet.(slots :=
                 d.cabinet.slots[h.slot := Slot(Some(h), None, false, false, false, false)])
    ensures TakenUp(s, v, h)
  {
  }

  /**
   * An unlocked session that has just been taken up asks for something and gets the generation its slot is bound to.
   */
  lemma RequestRun(s: State, h: Handle, luck: Luck) returns (actions: seq<Action>, u: State)
    requires TakenUp(s, s, h) && s.ui.gate.alive && !s.ui.gate.locked && s.desk.counters.requests < REQUESTS
    requires luck.open && luck.archive && luck.generation !in s.cabinet.registry.used
    requires !s.cabinet.registry.resetPending && h.slot !in s.cabinet.registry.retiring
    requires h.slot in s.cabinet.registry.bindings
    requires s.cabinet.registry.bindings[h.slot].owner == h.owner
    requires s.cabinet.registry.bindings[h.slot].authorization == h.authorization
    ensures Leads(s, actions, u) && |u.cabinet.log| == |s.cabinet.log| + 1
    ensures u.cabinet.log[|s.cabinet.log|].ticket.handle == h
    ensures u.cabinet.log[|s.cabinet.log|].vault == Some(Vault(h.slot, h.owner, h.authorization,
                s.cabinet.registry.bindings[h.slot].generation))
  {
    hide Leads, Used;
    var asked := Two(s, Request(h.id, true), Pop);
    assert asked.desk.running.Busy? && asked.desk.running.job.RequestJob? && asked.desk.running.job.ticket.handle == h
        && asked.cabinet == s.cabinet;
    u := Two(asked, Check, Use(luck));
    LeadsFurther(s, [Request(h.id, true), Pop], asked, [Check, Use(luck)], u);
    actions := [Request(h.id, true), Pop] + [Check, Use(luck)];
    ReopensBinding(s.cabinet, h, asked.desk.running.job.ticket, luck);
  }

  lemma BoundIsReopened(s: State, x: nat, past: set<nat>) returns (more: seq<Action>, t: State)
    requires Inv(s) && AtRest(s) && x < |s.cabinet.slots| && !Retired(s.cabinet.registry, x, past)
    ensures Reopens(s, more, t, x, past)
  {
    hide *;
    NotRetired(s.cabinet.registry, x, past);
    var b := s.cabinet.registry.bindings[x];
    InvParts(s);
    LegitBinding(s, x);
    SeatCount(s);
    var open, v := UnlockRun(s);
    var attach, w := AttachmentRun(v, x, b.owner, b.authorization);
    var h := Handle(|v.ui.sessions|, x, b.owner, b.authorization);
    var generation := Fresh(s.cabinet.registry.used);
    var luck := Luck(true, {}, true, true, true, true, {}, generation, true, true, true, false);
    TakenUpUnlocked(v, w, h);
    var ask, u := RequestRun(w, h, luck);
    LeadsFurther(s, open, v, attach, w);
    LeadsFurther(s, open + attach, w, ask, u);
    more, t := open + attach + ask, u;
    ItReopens(s, more, t, x, past);
  }

  lemma NotRetired(r: Registry, x: nat, past: set<nat>)
    requires !Retired(r, x, past)
    ensures x in r.bindings && r.bindings[x].generation in past && !r.resetPending && x !in r.retiring
  {
  }

  lemma LegitBinding(s: State, x: nat)
    requires Legit(s) && x in s.cabinet.registry.bindings
    ensures Attachable(s.cabinet.registry.bindings[x].owner, s.cabinet.registry.bindings[x].authorization)
  {
    hide Attachable;
  }

  lemma UnlockRun(s: State) returns (actions: seq<Action>, t: State)
    requires AtRest(s) && UiInv(s.ui) && DeskInv(s.desk) && (s.desk.stopping <==> !s.ui.gate.alive)
    ensures Leads(s, actions, t) && AtRest(t) && UiInv(t.ui) && t.cabinet == s.cabinet && |t.ui.seats| == |s.ui.seats|
    ensures t.ui.gate.alive && !t.ui.gate.locked && t.desk.counters.requests < REQUESTS
  {
    hide DeskInv, UiInv, Leads;
    t := Step(s, SetLocked(false));
    OneStep(s, SetLocked(false), t);
    UiStep(s, SetLocked(false));
    DrainedCounters(s.desk);
    actions := [SetLocked(false)];
  }

  lemma TakenUpUnlocked(s: State, u: State, h: Handle)
    requires TakenUp(s, u, h)
    ensures TakenUp(u, u, h) && u.ui.gate == s.ui.gate && u.desk.counters == s.desk.counters
    ensures u.cabinet.registry == s.cabinet.registry && u.cabinet.log == s.cabinet.log
  {
  }

  lemma ItReopens(s: State, more: seq<Action>, t: State, x: nat, past: set<nat>)
    requires Leads(s, more, t) && |t.cabinet.log| == |s.cabinet.log| + 1
    requires t.cabinet.log[|s.cabinet.log|].ticket.handle.slot == x
    requires t.cabinet.log[|s.cabinet.log|].vault.Some? && t.cabinet.log[|s.cabinet.log|].vault.value.generation in past
    ensures Reopens(s, more, t, x, past)
  {
    hide Leads;
    assert ReachesPast(t.cabinet.log[|s.cabinet.log|], x, past);
  }

  /**
   * At every moment at which the worker is idle: the generations of the past are out of reach of slot `x`, whatever
   * the user and the worker do next, if and only if a reset is outstanding, the retirement of the slot's generation is
   * on record, or the registry has bound the slot to another generation or to none.
   */
  lemma OutOfReachExactly(states: seq<State>, actions: seq<Action>, slots: nat, i: nat, x: nat, past: set<nat>)
    requires Run(states, actions, slots) && i < |states| && AtRest(states[i])
    requires x < |states[i].cabinet.slots| && past <= states[i].cabinet.registry.used
    ensures Retired(states[i].cabinet.registry, x, past) <==> !exists more, t :: Reopens(states[i], more, t, x, past)
  {
    RunKeepsInv(states, actions, slots, i);
    hide *;
    var s := states[i];
    if Retired(s.cabinet.registry, x, past) {
      forall more, t ensures !Reopens(s, more, t, x, past) {
        RetiredIsSafe(s, more, t, x, past);
      }
    } else {
      var more, t := BoundIsReopened(s, x, past);
    }
  }

  lemma {:induction false} LeadsKeepsInv(s: State, actions: seq<Action>, t: State)
    requires Inv(s) && Leads(s, actions, t)
    ensures Inv(t)
    decreases |actions|
  {
    hide Inv, Enabled, Step;
    if actions != [] {
      StepKeepsInv(s, actions[0]);
      LeadsKeepsInv(Step(s, actions[0]), actions[1..], t);
    }
  }

  /** One clear has been worked on, and could not retire the generation; the worker is idle again. */
  predicate ClearFailed(s: State) {
    AtRest(s) && |s.cabinet.log| == 1 && s.cabinet.log[0].clear && s.cabinet.log[0].vault.None?
        && |s.cabinet.slots| == 1 && s.cabinet.slots[0].clearPending
  }

  /** A session that has just been taken up, alone, in front of the generation an earlier process left. */
  predicate Served(s: State, h: Handle, generation: nat) {
    && TakenUp(s, s, h) && s.ui.gate == Gate(true, false, 0) && h.slot == 0 && |s.cabinet.slots| == 1
    && s.cabinet.log == []
    && s.cabinet.registry == Registry(map[0 := Binding(h.owner, h.authorization, generation)], {generation}, false, {})
  }

  lemma ServedRun(owner: nat, account: Bytes, generation: nat) returns (actions: seq<Action>, s: State)
    requires Attachable(owner, account)
    ensures Leads(Bound(owner, account, generation), actions, s) && Served(s, Handle(0, 0, owner, account), generation)
    ensures Inv(s)
  {
    hide Leads, Inv, TakenUp, Attachable, UiInv, SeatInv, DeskInv, Housed, VaultInv, AttachInv, Legit;
    var start := Bound(owner, account, generation);
    assert Starts(start, 1);
    StartHolds(start, 1);
    InvParts(start);
    assert start.ui.sessions == [] && AtRest(start);
    actions, s := AttachmentRun(start, 0, owner, account);
    TakenUpUnlocked(start, s, Handle(0, 0, owner, account));
    LeadsKeepsSlots(start, actions, s);
    LeadsKeepsInv(start, actions, s);
  }

  lemma ClearIsTaken(s: State, h: Handle, generation: nat) returns (t: State)
    requires Served(s, h, generation)
    ensures Leads(s, [Clear(h.id, false), Pop], t)
    ensures t.desk == Desk([], Busy(ClearJob(Ticket(h, 1, 0, s.clock, false)), Entered), s.desk.counters, false)
    ensures t.cabinet == s.cabinet && IsCurrent(t.ui, Ticket(h, 1, 0, s.clock, false))
  {
    hide Leads;
    t := Two(s, Clear(h.id, false), Pop);
  }

  lemma ClearIsUsed(s: State, job: Job, luck: Luck) returns (t: State)
    requires job.ClearJob? && s.desk.running == Busy(job, Entered) && IsCurrent(s.ui, job.ticket)
    requires InRange(job, |s.cabinet.slots|)
    requires luck.generation !in s.cabinet.registry.used
    ensures Leads(s, [Check, Use(luck)], t) && t.cabinet == Used(s.cabinet, job, luck)
    ensures t.desk == s.desk.(running := Busy(job, Posting))
  {
    hide Leads, Used, IsCurrent;
    t := Two(s, Check, Use(luck));
  }

  lemma ClearIsDone(s: State, job: Job) returns (t: State)
    requires job.ClearJob? && s.desk.running == Busy(job, Posting)
    ensures Leads(s, [Post, ReleaseBytes] + [Release], t) && t.cabinet == s.cabinet && t.desk.running.Resting?
    ensures t.desk.queue == s.desk.queue && t.desk.stopping == s.desk.stopping
  {
    hide Leads, IsVisible;
    var wiped := Two(s, Post, ReleaseBytes);
    t := Step(wiped, Release);
    OneStep(wiped, Release, t);
    LeadsFurther(s, [Post, ReleaseBytes], wiped, [Release], t);
  }

  /** The registry cannot retire the generation. */
  lemma FailingClear(s: State, h: Handle, generation: nat) returns (actions: seq<Action>, u: State)
    requires Served(s, h, generation)
    ensures Leads(s, actions, u) && ClearFailed(u) && u.cabinet.registry == s.cabinet.registry
  {
    hide Leads, Used, IsCurrent, TakenUp;
    var luck := Luck(true, {}, false, false, true, true, {}, generation + 1, true, true, true, false);
    var job := ClearJob(Ticket(h, 1, 0, s.clock, false));
    var asked := ClearIsTaken(s, h, generation);
    TakenUpSession(s, h);
    var used := ClearIsUsed(asked, job, luck);
    UseFails(s.cabinet, job, luck);
    u := ClearIsDone(used, job);
    LeadsFurther(s, [Clear(h.id, false), Pop], asked, [Check, Use(luck)], used);
    LeadsFurther(s, [Clear(h.id, false), Pop] + [Check, Use(luck)], used, [Post, ReleaseBytes] + [Release], u);
    actions := [Clear(h.id, false), Pop] + [Check, Use(luck)] + ([Post, ReleaseBytes] + [Release]);
  }

  lemma TakenUpSession(s: State, h: Handle)
    requires TakenUp(s, s, h)
    ensures h.slot < |s.cabinet.slots| && s.cabinet.slots[h.slot].session == Some(h)
  {
  }

  lemma UseFails(c: Cabinet, job: Job, luck: Luck)
    requires job.ClearJob? && job.ticket.handle.slot == 0 && |c.slots| == 1
    requires var h := job.ticket.handle;
             && c.slots[0].session == Some(h) && 0 in c.registry.bindings && !c.registry.resetPending && !luck.logout
             && !luck.removed && luck.noted == {}
             && c.registry.bindings[0].owner == h.owner && c.registry.bindings[0].authorization == h.authorization
    ensures var d := Used(c, job, luck);
            d.registry == c.registry && d.log == c.log + [Entry(job.ticket, true, None)] && |d.slots| == 1
                && d.slots[0].clearPending
  {
  }

  lemma ServedIsBound(s: State, h: Handle, generation: nat, r: Registry)
    requires Served(s, h, generation) && r == s.cabinet.registry
    ensures !Retired(r, 0, {generation})
  {
  }

  lemma ClearFailedParts(s: State)
    requires ClearFailed(s)
    ensures AtRest(s) && |s.cabinet.slots| == 1
  {
  }

  /**
   * One way to lose a clear: it is worked on, the registry fails before the retirement is on record, and before the
   * next use of the archive, which would try again, the same account is attached anew.
   */
  lemma FailedClearIsLost(owner: nat, account: Bytes, generation: nat)
    requires Attachable(owner, account)
    ensures exists first, s, more, t ::
              Leads(Bound(owner, account, generation), first, s) && ClearFailed(s)
                  && Reopens(s, more, t, 0, {generation})
  {
    hide *;
    var start, h := Bound(owner, account, generation), Handle(0, 0, owner, account);
    var attach, served := ServedRun(owner, account, generation);
    var clear, s := FailingClear(served, h, generation);
    ServedIsBound(served, h, generation, s.cabinet.registry);
    LeadsFurther(start, attach, served, clear, s);
    LeadsKeepsInv(served, clear, s);
    ClearFailedParts(s);
    var more, t := BoundIsReopened(s, 0, {generation});
    assert Leads(start, attach + clear, s) && ClearFailed(s) && Reopens(s, more, t, 0, {generation});
  }

  lemma ClearIsAccepted(s: State, h: Handle, generation: nat) returns (t: State)
    requires Served(s, h, generation)
    ensures Enabled(s, Clear(h.id, true)) && Usable(s.ui, h.id) && t == Step(s, Clear(h.id, true))
    ensures t.desk == Desk([ClearJob(Ticket(h, 1, 0, s.clock, true))], Resting, s.desk.counters, false)
    ensures t.cabinet == s.cabinet
    ensures t.ui == s.ui.(sessions := s.ui.sessions[h.id := Session(h, true, false, 1)])
  {
    t := Step(s, Clear(h.id, true));
  }

  lemma ServedIsSeated(s: State, h: Handle, generation: nat)
    requires Served(s, h, generation) && UiInv(s.ui)
    ensures h.id < |s.ui.sessions| && s.ui.sessions[h.id].handle == h && 0 < |s.ui.seats| && s.ui.seats[0] == Some(h)
    ensures Seated(s.ui, h.id)
  {
  }

  /** Before the turn of the clear the host attaches the same account again. */
  lemma AttachReplaces(s: State, h: Handle, ticket: Ticket) returns (t: State)
    requires s.desk == Desk([ClearJob(ticket)], Resting, s.desk.counters, false) && ticket.handle == h
    requires Attachable(h.owner, h.authorization)
    requires h.id < |s.ui.sessions| && s.ui.sessions[h.id].handle == h && h.slot == 0 < |s.ui.seats|
    requires s.ui.seats[0] == Some(h)
    ensures var attach := Attach(0, h.owner, false, h.authorization); Enabled(s, attach) && t == Step(s, attach)
    ensures t.desk == Desk([ClearJob(ticket), DetachJob(h, false),
                AttachJob(Handle(|s.ui.sessions|, 0, h.owner, h.authorization), false)],
                           Resting, s.desk.counters, false)
    ensures t.cabinet == s.cabinet && !IsCurrent(t.ui, ticket)
  {
    hide IsId;
    t := Step(s, Attach(0, h.owner, false, h.authorization));
  }

  /** The clear is accepted, and before its turn the host attaches the same account again. */
  lemma ClearThenAttach(s: State, h: Handle, generation: nat) returns (t: State)
    requires Served(s, h, generation) && Inv(s) && Attachable(h.owner, h.authorization)
    ensures var attach := Attach(0, h.owner, false, h.authorization);
            Enabled(s, Clear(h.id, true)) && Enabled(Step(s, Clear(h.id, true)), attach)
                && t == Step(Step(s, Clear(h.id, true)), attach)
    ensures t.desk == Desk([ClearJob(Ticket(h, 1, 0, s.clock, true)), DetachJob(h, false),
                AttachJob(Handle(|s.ui.sessions|, 0, h.owner, h.authorization), false)],
                           Resting, s.desk.counters, false)
    ensures t.cabinet == s.cabinet == Step(s, Clear(h.id, true)).cabinet
    ensures !IsCurrent(t.ui, Ticket(h, 1, 0, s.clock, true)) && Usable(s.ui, h.id)
  {
    hide IsId, Inv, Enabled, Step, IsCurrent, TakenUp, Usable, UiInv;
    UiOfInv(s);
    ServedIsSeated(s, h, generation);
    var cleared := ClearIsAccepted(s, h, generation);
    t := AttachReplaces(cleared, h, Ticket(h, 1, 0, s.clock, true));
  }

  lemma DrainedReplacement(t: State, ticket: Ticket, h: Handle) returns (actions: seq<Action>, u: State)
    requires t.desk.queue == [ClearJob(ticket), DetachJob(ticket.handle, false), AttachJob(h, false)]
    requires t.desk.running.Resting? && !t.desk.stopping
    requires !IsCurrent(t.ui, ticket) && |t.cabinet.slots| == 1 && ticket.handle.slot == 0 == h.slot
    ensures Leads(t, actions, u) && AtRest(u) && |u.cabinet.slots| == 1 && u.cabinet.registry == t.cabinet.registry
    ensures u.cabinet.log == t.cabinet.log
  {
    hide Leads, IsCurrent;
    var luck := Luck(true, {}, false, false, true, true, {}, 0, true, true, true, false);
    var dropped := TurnOfRevokedClear(t);
    var detached := TurnOfDetached(dropped, ticket.handle, h, luck);
    u := TurnOfAttached(detached, h, luck);
    LeadsFurther(t, [Pop, Check] + [ReleaseBytes, Release], dropped, [Pop, Manage(luck)], detached);
    actions := [Pop, Check] + [ReleaseBytes, Release] + [Pop, Manage(luck)] + [Pop, Manage(luck)];
    LeadsFurther(t, [Pop, Check] + [ReleaseBytes, Release] + [Pop, Manage(luck)], detached, [Pop, Manage(luck)], u);
  }

  /**
   * The other way: a clear the UI thread has accepted is dropped when the same account is attached again before its
   * turn, and the new session reads the very generation that was to be retired.
   */
  lemma DroppedClearIsLost(owner: nat, account: Bytes, generation: nat)
    requires Attachable(owner, account)
    ensures exists first, s, more, t ::
              && Leads(Bound(owner, account, generation), first, s) && Usable(s.ui, 0) && Enabled(s, Clear(0, true))
              && Reopens(Step(s, Clear(0, true)), more, t, 0, {generation})
  {
    hide *;
    var h, attach := Handle(0, 0, owner, account), Attach(0, owner, false, account);
    var first, s := ServedRun(owner, account, generation);
    var replaced := ClearThenAttach(s, h, generation);
    var cleared := Step(s, Clear(0, true));
    StepKeepsInv(s, Clear(0, true));
    OneStep(cleared, attach, replaced);
    ServedIsBound(s, h, generation, s.cabinet.registry);
    var drain, u := ReplacementRun(s, h, generation, replaced);
    LeadsFurther(cleared, [attach], replaced, drain, u);
    LeadsKeepsInv(cleared, [attach] + drain, u);
    var again, t := BoundIsReopened(u, 0, {generation});
    ReopensEarlier(cleared, [attach] + drain, u, again, t, 0, {generation});
    assert Reopens(cleared, [attach] + drain + again, t, 0, {generation});
  }

  lemma ReplacementRun(s: State, h: Handle, generation: nat, t: State) returns (actions: seq<Action>, u: State)
    requires Served(s, h, generation) && t.cabinet == s.cabinet && !IsCurrent(t.ui, Ticket(h, 1, 0, s.clock, true))
    requires t.desk == Desk([ClearJob(Ticket(h, 1, 0, s.clock, true)), DetachJob(h, false),
                 AttachJob(Handle(|s.ui.sessions|, 0, h.owner, h.authorization), false)],
                            Resting, s.desk.counters, false)
    ensures Leads(t, actions, u) && AtRest(u) && |u.cabinet.slots| == 1 && u.cabinet.registry == s.cabinet.registry
    ensures u.cabinet.log == s.cabinet.log
  {
    hide Leads, IsCurrent, TakenUp;
    actions, u := DrainedReplacement(t, Ticket(h, 1, 0, s.clock, true),
        Handle(|s.ui.sessions|, 0, h.owner, h.authorization));
  }

  lemma ReopensEarlier(s: State, first: seq<Action>, u: State, more: seq<Action>, t: State, x: nat, past: set<nat>)
    requires Leads(s, first, u) && Reopens(u, more, t, x, past) && |s.cabinet.log| <= |u.cabinet.log|
    ensures Reopens(s, first + more, t, x, past)
  {
    hide Leads, ReachesPast;
    LeadsFurther(s, first, u, more, t);
  }

  lemma {:induction false} LeadsKeepsSlots(s: State, actions: seq<Action>, t: State)
    requires Inv(s) && Leads(s, actions, t)
    ensures |t.cabinet.slots| == |s.cabinet.slots|
    decreases |actions|
  {
    hide Inv, Enabled, Step, DeskInv, UiInv, SeatInv, Housed, VaultInv, AttachInv, Legit;
    if actions != [] {
      InvParts(s);
      CabinetGrows(s, actions[0]);
      StepKeepsInv(s, actions[0]);
      LeadsKeepsSlots(Step(s, actions[0]), actions[1..], t);
    }
  }
}
