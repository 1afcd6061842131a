/**
 * What forgetting, logging out and logging in afresh are good for, over every run of the archive worker: which
 * generations are never reached again, stated about the log of what was reached.
 */
module ArchiveForgetting {
  import opened Common
  import opened SnapshotCodec
  import opened CatalogCodec
  import opened ArchiveWorker
  import opened ArchiveClearing

  // ----- forgetting everything

  /** The turn of a job that forgets everything. */
  predicate Forgets(s: State, a: Action) { a.Manage? && s.desk.running.Busy? && s.desk.running.job.ForgetJob? }

  lemma ForgottenAtOnce(s: State, luck: Luck, x: nat)
    requires VaultInv(s.cabinet) && Enabled(s, Manage(luck)) && Forgets(s, Manage(luck)) && x < |s.cabinet.slots|
    ensures var t := Step(s, Manage(luck));
            && Holds(t, |s.cabinet.log|, x, s.cabinet.registry.used) && t.cabinet.log == s.cabinet.log
            && Retired(t.cabinet.registry, x, s.cabinet.registry.used)
            && |t.cabinet.slots| == |s.cabinet.slots| && t.cabinet.registry.used == s.cabinet.registry.used
  {
    hide VaultInv;
  }

  lemma ForgottenInRun(states: seq<State>, actions: seq<Action>, slots: nat, p: nat, i: nat, x: nat)
    requires Run(states, actions, slots) && p < i < |states| && Forgets(states[p], actions[p])
    requires x < |states[i].cabinet.slots|
    ensures Holds(states[i], |states[p].cabinet.log|, x, states[p].cabinet.registry.used)
  {
    hide *;
    var past := states[p].cabinet.registry.used;
    RunAt(states, actions, slots, p + 1);
    RunKeepsInv(states, actions, slots, p);
    InvParts(states[p]);
    SameSlots(states, actions, slots, p, i);
    ForgetsManages(states[p], actions[p]);
    ForgottenAtOnce(states[p], actions[p].luck, x);
    forall r | p + 1 <= r < i ensures Retired(states[r].cabinet.registry, x, past) {
      RetiredOn(states, actions, slots, p + 1, r, x, past);
    }
    HoldsOn(states, actions, slots, p + 1, i, |states[p].cabinet.log|, x, past);
  }

  lemma ForgetsManages(s: State, a: Action)
    requires Forgets(s, a)
    ensures a == Manage(a.luck)
  {
  }

  lemma {:induction false} SameSlots(states: seq<State>, actions: seq<Action>, slots: nat, p: nat, i: nat)
    requires Run(states, actions, slots) && p <= i < |states|
    ensures |states[i].cabinet.slots| == |states[p].cabinet.slots|
    ensures states[p].cabinet.registry.used <= states[i].cabinet.registry.used
    decreases i
  {
    hide *;
    if p < i {
      SameSlots(states, actions, slots, p, i - 1);
      RunAt(states, actions, slots, i);
      RunKeepsInv(states, actions, slots, i - 1);
      InvParts(states[i - 1]);
      CabinetGrows(states[i - 1], actions[i - 1]);
    }
  }

  /** Every entry is of one of the slots. */
  lemma {:induction false} LoggedSlots(states: seq<State>, actions: seq<Action>, slots: nat, i: nat, k: nat)
    requires Run(states, actions, slots) && i < |states| && k < |states[i].cabinet.log|
    ensures states[i].cabinet.log[k].ticket.handle.slot < |states[i].cabinet.slots|
  {
    hide *;
    RunAt(states, actions, slots, i);
    if i == 0 {
      NothingLogged(states[0], slots);
    } else {
      LogStep(states[i - 1], actions[i - 1]);
      RunKeepsInv(states, actions, slots, i - 1);
      InvParts(states[i - 1]);
      CabinetGrows(states[i - 1], actions[i - 1]);
      if k < |states[i - 1].cabinet.log| {
        LoggedSlots(states, actions, slots, i - 1, k);
      } else {
        NewEntry(states[i - 1], actions[i - 1], k);
      }
    }
  }

  lemma NothingLogged(s: State, slots: nat)
    requires Starts(s, slots)
    ensures s.cabinet.log == []
  {
  }

  lemma NewEntry(s: State, a: Action, k: nat)
    requires Enabled(s, a) && |s.cabinet.log| <= k < |Step(s, a).cabinet.log|
    ensures a.Use? && k == |s.cabinet.log|
    ensures Step(s, a).cabinet.log[k].ticket == s.desk.running.job.ticket
    ensures s.desk.running.job.ticket.handle.slot < |s.cabinet.slots|
  {
    hide Reached, Reset, LoggedOut, IsId, Emptied, Unseated, Passes, IsVisible;
  }

  /**
   * Once a request to forget everything has had its turn, even if the registry could not be erased, no session of any
   * slot ever reaches a generation there was before: neither one that was ever read nor one the registry had bound.
   */
  lemma ForgettingIsForever(states: seq<State>, actions: seq<Action>, slots: nat, p: nat, i: nat, k: nat)
    requires Run(states, actions, slots) && p < i < |states| && Forgets(states[p], actions[p])
    requires |states[p].cabinet.log| <= k < |states[i].cabinet.log| && states[i].cabinet.log[k].vault.Some?
    ensures var generation, c := states[i].cabinet.log[k].vault.value.generation, states[p].cabinet;
            && generation !in c.registry.used
            && (forall j :: 0 <= j < |c.log| && c.log[j].vault.Some? ==> c.log[j].vault.value.generation != generation)
            && (forall x :: x in c.registry.bindings ==> c.registry.bindings[x].generation != generation)
  {
    hide *;
    LoggedSlots(states, actions, slots, i, k);
    var x := states[i].cabinet.log[k].ticket.handle.slot;
    ForgottenInRun(states, actions, slots, p, i, x);
    HoldsFor(states[i], |states[p].cabinet.log|, x, states[p].cabinet.registry.used, k);
    RunKeepsInv(states, actions, slots, p);
    InvParts(states[p]);
    KnownIsUsed(states[p].cabinet);
  }

  /** Whatever was reached or is bound counts as used. */
  lemma KnownIsUsed(c: Cabinet)
    requires VaultInv(c)
    ensures forall j :: 0 <= j < |c.log| && c.log[j].vault.Some? ==> c.log[j].vault.value.generation in c.registry.used
    ensures forall x :: x in c.registry.bindings ==> c.registry.bindings[x].generation in c.registry.used
  {
    assert forall j :: 0 <= j < |c.log| ==> EntryOk(c.log[j], c.registry.used);
  }

  // ----- the turn of a job without a ticket

  lemma JobWaits(s: State, a: Action, job: Job)
    requires DeskInv(s.desk) && Enabled(s, a) && !Ticketed(job) && job in Pending(s.desk)
    ensures job in Pending(Step(s, a).desk) || (a.Manage? && s.desk.running.Busy? && s.desk.running.job == job)
  {
    hide Used, Managed, IsVisible, IsCurrent, Load, RunningLoad, Admissible, IsId, Unseated, Emptied;
    var jobs, next := Pending(s.desk), Pending(Step(s, a).desk);
    if a.Manage? || a.Release? {
      assert jobs[0] == s.desk.running.job && jobs[1..] == next;
    } else if OfWorker(a) {
      assert jobs == next;
    } else {
      assert jobs <= next by { QueueOnlyGrows(s, a); }
    }
  }

  lemma QueueOnlyGrows(s: State, a: Action)
    requires Enabled(s, a) && !OfWorker(a)
    ensures Pending(s.desk) <= Pending(Step(s, a).desk)
  {
    QueueGrows(s, a);
  }

  /** Nothing is left to do: the worker rests on an empty queue, or has ended. */
  predicate Drained(s: State) { s.desk.queue == [] && !s.desk.running.Busy? }

  /** Every queued job without a ticket has its turn before the queue is drained. */
  lemma TurnComes(states: seq<State>, actions: seq<Action>, slots: nat, p: nat, m: nat, job: Job) returns (q: nat)
    requires Run(states, actions, slots) && p <= m < |states| && Drained(states[m])
    requires !Ticketed(job) && job in Pending(states[p].desk)
    ensures p <= q < m && actions[q].Manage? && states[q].desk.running.Busy? && states[q].desk.running.job == job
    decreases m - p
  {
    hide *;
    if p == m {
      NothingLeft(states[m], job);
    }
    RunKeepsInv(states, actions, slots, p);
    InvParts(states[p]);
    RunAt(states, actions, slots, p + 1);
    JobWaits(states[p], actions[p], job);
    if actions[p].Manage? && states[p].desk.running.Busy? && states[p].desk.running.job == job {
      q := p;
    } else {
      q := TurnComes(states, actions, slots, p + 1, m, job);
    }
  }

  lemma NothingLeft(s: State, job: Job)
    requires Drained(s)
    ensures job !in Pending(s.desk)
  {
  }

  /** Every request to forget is kept, by the time the worker has done all it was told before. */
  lemma ForgetAllIsKept(states: seq<State>, actions: seq<Action>, slots: nat, p: nat, m: nat, i: nat, k: nat)
    requires Run(states, actions, slots) && p < m <= i < |states| && actions[p].ForgetAll? && Drained(states[m])
    requires |states[m].cabinet.log| <= k < |states[i].cabinet.log| && states[i].cabinet.log[k].vault.Some?
    ensures states[i].cabinet.log[k].vault.value.generation !in states[p].cabinet.registry.used
  {
    hide *;
    RunAt(states, actions, slots, p + 1);
    ForgetIsQueued(states[p], actions[p]);
    var q := TurnComes(states, actions, slots, p + 1, m, ForgetJob);
    ForgetsNow(states[q], actions[q]);
    LogGrows(states, actions, slots, q, m);
    ForgettingIsForever(states, actions, slots, q, i, k);
    SameSlots(states, actions, slots, p, q);
  }

  lemma ForgetIsQueued(s: State, a: Action)
    requires Enabled(s, a) && a.ForgetAll?
    ensures ForgetJob in Pending(Step(s, a).desk) && !Ticketed(ForgetJob)
  {
    hide Emptied;
    var jobs := Pending(Step(s, a).desk);
    assert jobs[|jobs| - 1] == ForgetJob;
  }

  lemma ForgetsNow(s: State, a: Action)
    requires a.Manage? && s.desk.running.Busy? && s.desk.running.job == ForgetJob
    ensures Forgets(s, a)
  {
  }

  // ----- logging out

  /** The binding is of the session's own account. */
  predicate Owns(b: Binding, h: Handle) { b.owner == h.owner && b.authorization == h.authorization }

  /**
   * The registry manages to erase the slot's generation or to put its retirement on record; what it has bound to the
   * slot, if anything, is the account's own.
   */
  predicate Erases(r: Registry, h: Handle, luck: Luck) {
    && (luck.logout || luck.removed || h.slot in luck.noted)
    && (h.slot in r.bindings ==> Owns(r.bindings[h.slot], h))
  }

  /** The turn of a logout that the registry carries out. */
  predicate LogsOut(s: State, a: Action, h: Handle) {
    && a.Manage? && s.desk.running.Busy? && s.desk.running.job == DetachJob(h, true)
    && Erases(s.cabinet.registry, h, a.luck)
  }

  lemma LoggedOutAtOnce(s: State, luck: Luck, h: Handle)
    requires SeatInv(s) && VaultInv(s.cabinet) && Enabled(s, Manage(luck)) && LogsOut(s, Manage(luck), h)
    ensures var t := Step(s, Manage(luck));
            && Holds(t, |s.cabinet.log|, h.slot, s.cabinet.registry.used) && t.cabinet.log == s.cabinet.log
            && Retired(t.cabinet.registry, h.slot, s.cabinet.registry.used)
            && |t.cabinet.slots| == |s.cabinet.slots| && t.cabinet.registry.used == s.cabinet.registry.used
  {
    RunningJobIsHome(s);
    hide VaultInv, SeatInv;
  }

  lemma RetiredHolds(states: seq<State>, actions: seq<Action>, slots: nat, p: nat, i: nat, n: nat, x: nat,
      past: set<nat>)
    requires Run(states, actions, slots) && p <= i < |states| && Holds(states[p], n, x, past)
    requires Retired(states[p].cabinet.registry, x, past)
    ensures Holds(states[i], n, x, past)
  {
    hide *;
    HoldsParts(states[p], n, x, past);
    forall r | p <= r < i ensures Retired(states[r].cabinet.registry, x, past) {
      RetiredOn(states, actions, slots, p, r, x, past);
    }
    HoldsOn(states, actions, slots, p, i, n, x, past);
  }

  /**
   * An account that logs out leaves nothing behind: by the time the worker has done all it was told before, the logout
   * has had its turn, and if the registry then erased the slot's generation or recorded its retirement, no session of
   * the slot ever reaches a generation there was before the call.
   */
  lemma LogoutIsForever(states: seq<State>, actions: seq<Action>, slots: nat, p: nat, m: nat)
    requires Run(states, actions, slots) && p < m < |states| && Drained(states[m])
    requires actions[p].Detach? && actions[p].loggedOut && Seated(states[p].ui, actions[p].id)
    ensures var h := states[p].ui.sessions[actions[p].id].handle;
            exists q :: p < q < m && actions[q].Manage? && states[q].desk.running.Busy?
              && states[q].desk.running.job == DetachJob(h, true)
              && (LogsOut(states[q], actions[q], h) ==> forall i :: m <= i < |states| ==>
                    Spared(states[i].cabinet.log, |states[m].cabinet.log|, h.slot, states[p].cabinet.registry.used))
  {
    hide *;
    RunAt(states, actions, slots, p + 1);
    LogoutIsQueued(states[p], actions[p]);
    var h := states[p].ui.sessions[actions[p].id].handle;
    var q := TurnComes(states, actions, slots, p + 1, m, DetachJob(h, true));
    if LogsOut(states[q], actions[q], h) {
      LogGrows(states, actions, slots, q, m);
      SameSlots(states, actions, slots, p, q);
      forall i | m <= i < |states|
        ensures Spared(states[i].cabinet.log, |states[m].cabinet.log|, h.slot, states[p].cabinet.registry.used)
      {
        LogGrows(states, actions, slots, m, i);
        LoggedOutSince(states, actions, slots, q, i, h);
        SparedLess(states[i].cabinet.log, |states[q].cabinet.log|, |states[m].cabinet.log|, h.slot,
            states[q].cabinet.registry.used, states[p].cabinet.registry.used);
      }
    }
  }

  lemma SparedLess(log: seq<Entry>, n: nat, m: nat, x: nat, past: set<nat>, less: set<nat>)
    requires Spared(log, n, x, past) && n <= m <= |log| && less <= past
    ensures Spared(log, m, x, less)
  {
  }

  lemma LoggedOutSince(states: seq<State>, actions: seq<Action>, slots: nat, q: nat, i: nat, h: Handle)
    requires Run(states, actions, slots) && q < i < |states| && LogsOut(states[q], actions[q], h)
    ensures Spared(states[i].cabinet.log, |states[q].cabinet.log|, h.slot, states[q].cabinet.registry.used)
  {
    hide *;
    var past, n := states[q].cabinet.registry.used, |states[q].cabinet.log|;
    RunAt(states, actions, slots, q + 1);
    RunKeepsInv(states, actions, slots, q);
    InvParts(states[q]);
    LogsOutManages(states[q], actions[q], h);
    LoggedOutAtOnce(states[q], actions[q].luck, h);
    RetiredHolds(states, actions, slots, q + 1, i, n, h.slot, past);
    HoldsParts(states[i], n, h.slot, past);
  }

  lemma LogsOutManages(s: State, a: Action, h: Handle)
    requires LogsOut(s, a, h)
    ensures a == Manage(a.luck)
  {
  }

  lemma LogoutIsQueued(s: State, a: Action)
    requires Enabled(s, a) && a.Detach? && a.loggedOut && Seated(s.ui, a.id)
    ensures a.id < |s.ui.sessions|
    ensures var job := DetachJob(s.ui.sessions[a.id].handle, true);
              job in Pending(Step(s, a).desk) && !Ticketed(job)
  {
    hide Unseated;
    var jobs := Pending(Step(s, a).desk);
    assert jobs[|jobs| - 1] == DetachJob(s.ui.sessions[a.id].handle, true);
  }

  // ----- logging in afresh

  /**
   * Session `h` was attached as a fresh login when the generations of `past` had been made: it has reached none of
   * them, and when it is taken up, or has been, its slot asks for another one.
   */
  ghost predicate Newborn(s: State, h: Handle, past: set<nat>) {
    && past <= s.cabinet.registry.used && h.slot < |s.cabinet.slots| && h.id < |s.ui.sessions|
    && (forall k :: 0 <= k < |s.cabinet.log| && s.cabinet.log[k].ticket.handle == h && s.cabinet.log[k].vault.Some? ==>
          s.cabinet.log[k].vault.value.generation !in past)
    && (forall job :: job in Pending(s.desk) && job.AttachJob? && job.handle == h ==> job.freshLogin)
    && (s.cabinet.slots[h.slot].session == Some(h) ==>
          Guarded(s.cabinet.slots[h.slot], s.cabinet.registry, h.slot, past))
  }

  lemma NewbornNow(s: State, a: Action, h: Handle)
    requires SeatInv(s) && AttachInv(s) && Enabled(s, a) && a.Attach? && a.freshLogin
    requires 0 <= a.slot < |s.ui.seats| && Attachable(a.owner, a.authorization)
    requires h == Handle(|s.ui.sessions|, a.slot, a.owner, a.authorization)
    ensures Newborn(Step(s, a), h, s.cabinet.registry.used)
  {
    UiLeavesCabinet(s, a);
    FreshAttachment(s, a);
    hide Step, Enabled, Guarded, Seats, Tidy, IsId;
    var earlier, jobs := Pending(s.desk), Pending(Step(s, a).desk);
    assert forall k :: 0 <= k < |earlier| ==> jobs[k] == earlier[k];
    assert forall j :: 0 <= j < |s.cabinet.log| ==> s.cabinet.log[j].ticket.handle != h;
  }

  lemma FreshAttachment(s: State, a: Action)
    requires Enabled(s, a) && a.Attach? && 0 <= a.slot < |s.ui.seats| && Attachable(a.owner, a.authorization)
    ensures var earlier, t := Pending(s.desk), Step(s, a);
            var jobs := Pending(t.desk);
            && earlier <= jobs && |t.ui.sessions| == |s.ui.sessions| + 1
            && forall k :: |earlier| <= k < |jobs| && jobs[k].AttachJob? ==> jobs[k].freshLogin == a.freshLogin
  {
    hide IsId, Unseated;
  }

  lemma NewbornStepOfUi(s: State, a: Action, h: Handle, past: set<nat>)
    requires Enabled(s, a) && !OfWorker(a) && Newborn(s, h, past)
    ensures Newborn(Step(s, a), h, past)
  {
    UiLeavesCabinet(s, a);
    SessionsGrow(s, a);
    QueueGrows(s, a);
    hide Step, Enabled, Guarded;
    var earlier, jobs := Pending(s.desk), Pending(Step(s, a).desk);
    assert forall k :: 0 <= k < |earlier| ==> jobs[k] == earlier[k];
  }

  lemma NewbornStepOfUse(s: State, luck: Luck, h: Handle, past: set<nat>)
    requires SeatInv(s) && VaultInv(s.cabinet) && Enabled(s, Use(luck)) && Newborn(s, h, past)
    ensures Newborn(Step(s, Use(luck)), h, past)
  {
    var job := s.desk.running.job;
    UseIs(s, luck);
    RunningJobIsHome(s);
    UsedKeepsSessions(s.cabinet, job, luck);
    UsedGrows(s.cabinet, job, luck);
    UseIsLogged(s, luck);
    assert Pending(Step(s, Use(luck)).desk) == Pending(s.desk);
    hide SeatInv, VaultInv, Guarded, Used, Enabled, Marked;
    if s.cabinet.slots[h.slot].session == Some(h) {
      MarkedIsGuarded(s.cabinet.slots[h.slot], job, s.cabinet.registry, h.slot, past);
      UsedIsGuarded(s.cabinet, job, luck, h.slot, past);
    }
  }

  lemma NewbornStepOfManage(s: State, luck: Luck, h: Handle, past: set<nat>)
    requires Housed(s.cabinet) && VaultInv(s.cabinet) && Enabled(s, Manage(luck)) && Newborn(s, h, past)
    ensures Newborn(Step(s, Manage(luck)), h, past)
  {
    var job, c, d := s.desk.running.job, s.cabinet, Step(s, Manage(luck)).cabinet;
    var jobs := Pending(s.desk);
    assert jobs[0] == job && jobs[1..] == Pending(Step(s, Manage(luck)).desk);
    ManagedGrows(c, job, luck);
    ManagedSeats(c, job, luck);
    ManagedKeepsVaults(c, job, luck);
    hide VaultInv, Housed;
    if d.slots[h.slot].session == Some(h) && !job.AttachJob? {
      hide Managed, Guarded;
      ManagedIsGuarded(c, job, luck, h.slot, past);
    } else if job.AttachJob? && job.handle.slot != h.slot && c.slots[h.slot].session == Some(h) {
      hide Managed, Guarded;
      ManagedIsGuarded(c, job, luck, h.slot, past);
    }
  }

  lemma NewbornStepOfRest(s: State, a: Action, h: Handle, past: set<nat>)
    requires DeskInv(s.desk) && Enabled(s, a) && OfWorker(a) && !a.Use? && !a.Manage? && Newborn(s, h, past)
    ensures Newborn(Step(s, a), h, past)
  {
    hide IsVisible, IsCurrent, Load, RunningLoad, Guarded;
    var jobs, rest := Pending(s.desk), Pending(Step(s, a).desk);
    assert if a.Release? then jobs[1..] == rest else jobs == rest;
  }

  lemma {:induction false} NewbornOn(states: seq<State>, actions: seq<Action>, slots: nat, p: nat, i: nat, h: Handle,
      past: set<nat>)
    requires Run(states, actions, slots) && p <= i < |states| && Newborn(states[p], h, past)
    ensures Newborn(states[i], h, past)
    decreases i
  {
    hide *;
    if p < i {
      NewbornOn(states, actions, slots, p, i - 1, h, past);
      RunAt(states, actions, slots, i);
      RunKeepsInv(states, actions, slots, i - 1);
      InvParts(states[i - 1]);
      NewbornStep(states[i - 1], actions[i - 1], h, past);
    }
  }

  lemma NewbornStep(s: State, a: Action, h: Handle, past: set<nat>)
    requires DeskInv(s.desk) && SeatInv(s) && Housed(s.cabinet) && VaultInv(s.cabinet) && Enabled(s, a)
    requires Newborn(s, h, past)
    ensures Newborn(Step(s, a), h, past)
  {
    hide *;
    if a.Use? {
      NewbornStepOfUse(s, a.luck, h, past);
    } else if a.Manage? {
      NewbornStepOfManage(s, a.luck, h, past);
    } else if OfWorker(a) {
      NewbornStepOfRest(s, a, h, past);
    } else {
      NewbornStepOfUi(s, a, h, past);
    }
  }

  /** A session attached as a fresh login never reaches a generation there was before it was attached. */
  lemma FreshLoginReadsNothingOld(states: seq<State>, actions: seq<Action>, slots: nat, p: nat, i: nat, k: nat)
    requires Run(states, actions, slots) && p < i < |states| && k < |states[i].cabinet.log|
    requires actions[p].Attach? && actions[p].freshLogin && 0 <= actions[p].slot < |states[p].ui.seats|
    requires Attachable(actions[p].owner, actions[p].authorization) && states[i].cabinet.log[k].vault.Some?
    requires states[i].cabinet.log[k].ticket.handle
          == Handle(|states[p].ui.sessions|, actions[p].slot, actions[p].owner, actions[p].authorization)
    ensures states[i].cabinet.log[k].vault.value.generation !in states[p].cabinet.registry.used
  {
    hide *;
    RunAt(states, actions, slots, p + 1);
    RunKeepsInv(states, actions, slots, p);
    InvParts(states[p]);
    var h := states[i].cabinet.log[k].ticket.handle;
    NewbornNow(states[p], actions[p], h);
    NewbornOn(states, actions, slots, p + 1, i, h, states[p].cabinet.registry.used);
    NewbornSees(states[i], h, states[p].cabinet.registry.used, k);
  }

  lemma NewbornSees(s: State, h: Handle, past: set<nat>, k: nat)
    requires Newborn(s, h, past) && k < |s.cabinet.log| && s.cabinet.log[k].ticket.handle == h
    requires s.cabinet.log[k].vault.Some?
    ensures s.cabinet.log[k].vault.value.generation !in past
  {
    hide Guarded;
  }

  // ----- no generation is shared

  /** No generation is bound to two slots. */
  ghost predicate OneSlotEach(r: Registry) {
    forall x, y :: x in r.bindings && y in r.bindings && r.bindings[x].generation == r.bindings[y].generation ==> x == y
  }

  predicate BoundAs(v: Vault, b: Binding, x: nat) {
    v.slot == x && v.owner == b.owner && v.authorization == b.authorization
  }

  predicate Reads(e: Entry, generation: nat) { e.vault.Some? && e.vault.value.generation == generation }

  /** Whoever reached a generation, or could reach it now, does so for the same slot and the same account. */
  ghost predicate Unshared(c: Cabinet) {
    && OneSlotEach(c.registry)
    && (forall k, x :: 0 <= k < |c.log| && x in c.registry.bindings
                       && Reads(c.log[k], c.registry.bindings[x].generation) ==>
                         BoundAs(c.log[k].vault.value, c.registry.bindings[x], x))
    && (forall j, k :: 0 <= j < |c.log| && 0 <= k < |c.log| && c.log[j].vault.Some?
                       && Reads(c.log[k], c.log[j].vault.value.generation) ==>
                         c.log[j].vault == c.log[k].vault)
  }

  /** What is bound afterwards was bound before, or is slot `x` bound to the generation just drawn. */
  ghost predicate BindsDrawn(r: Registry, next: Registry, x: nat, drawn: nat) {
    forall y :: y in next.bindings ==>
      (y in r.bindings && next.bindings[y] == r.bindings[y]) || (y == x && next.bindings[y].generation == drawn)
  }

  lemma ReachedBindsDrawn(slot: Slot, r: Registry, h: Handle, luck: Luck)
    requires slot.session == Some(h)
    ensures BindsDrawn(r, Reached(slot, r, h, luck).1, h.slot, luck.generation)
  {
    hide ClearStage, OpenStage, ReadyStage, Reached;
    ReachedOf(slot, r, h, luck);
    ClearStageBindsDrawn(slot, r, h, luck);
    var (cleared, r1, _) := ClearStage(slot, r, h, luck);
    OpenStageBindsDrawn(cleared, r1, h, luck);
  }

  lemma ClearStageBindsDrawn(slot: Slot, r: Registry, h: Handle, luck: Luck)
    ensures BindsDrawn(r, ClearStage(slot, r, h, luck).1, h.slot, luck.generation)
  {
  }

  lemma OpenStageBindsDrawn(slot: Slot, r: Registry, h: Handle, luck: Luck)
    ensures BindsDrawn(r, OpenStage(slot, r, h, luck).1, h.slot, luck.generation)
  {
    assert BindsDrawn(r, Reset(r, luck).0, h.slot, luck.generation);
    assert BindsDrawn(Reset(r, luck).0, Opened(Reset(r, luck).0, h, slot.freshLogin, luck).0, h.slot, luck.generation);
    hide Reset, Opened;
  }

  lemma UnsharedAfterUse(c: Cabinet, job: Job, luck: Luck)
    requires VaultInv(c) && Unshared(c) && Ticketed(job) && job.ticket.handle.slot < |c.slots|
    requires luck.generation !in c.registry.used
    requires c.slots[job.ticket.handle.slot].session == Some(job.ticket.handle)
    ensures Unshared(Used(c, job, luck))
  {
    var h, d := job.ticket.handle, Used(c, job, luck);
    UsedParts(c, job, luck);
    MarkedIsOk(c.slots[h.slot], job, c.registry, h.slot);
    ReachedBindsDrawn(Marked(c.slots[h.slot], job), c.registry, h, luck);
    ReachedMoves(Marked(c.slots[h.slot], job), c.registry, h, luck);
    KnownIsUsed(c);
    var (slot, _, ok) := Reached(Marked(c.slots[h.slot], job), c.registry, h, luck);
    NewestIsBound(slot, d.registry, h.slot, ok);
    hide *;
    UnsharedMore(c, d, Entry(job.ticket, job.ClearJob?, if ok then slot.vault else None), h.slot, luck.generation);
  }

  lemma UnsharedMore(c: Cabinet, d: Cabinet, e: Entry, x: nat, drawn: nat)
    requires Unshared(c) && BindsDrawn(c.registry, d.registry, x, drawn) && drawn !in c.registry.used
    requires d.log == c.log + [e]
    requires e.vault.Some? ==> x in d.registry.bindings && BoundAs(e.vault.value, d.registry.bindings[x], x)
                               && e.vault.value.generation == d.registry.bindings[x].generation
    requires forall j :: 0 <= j < |c.log| && c.log[j].vault.Some? ==>
               c.log[j].vault.value.generation in c.registry.used
    requires forall y :: y in c.registry.bindings ==> c.registry.bindings[y].generation in c.registry.used
    ensures Unshared(d)
  {
    assert forall k :: 0 <= k < |c.log| ==> d.log[k] == c.log[k];
    assert forall k, y :: 0 <= k < |c.log| && y in d.registry.bindings
                          && Reads(c.log[k], d.registry.bindings[y].generation) ==>
                            BoundAs(c.log[k].vault.value, d.registry.bindings[y], y);
  }

  /** The vault just reached is the one its slot is bound to. */
  lemma NewestIsBound(slot: Slot, r: Registry, x: nat, ok: bool)
    requires SlotOk(slot, r, x) && (ok ==> slot.vault.Some?)
    ensures ok ==> x in r.bindings && BoundAs(slot.vault.value, r.bindings[x], x)
                   && slot.vault.value.generation == r.bindings[x].generation
  {
  }

  lemma UnsharedAfterManage(c: Cabinet, job: Job, luck: Luck)
    requires VaultInv(c) && Unshared(c) && !Ticketed(job) && (!job.ForgetJob? ==> job.handle.slot < |c.slots|)
    ensures Unshared(Managed(c, job, luck))
  {
    ManagedBinds(c, job, luck);
    ManagedKeepsVaults(c, job, luck);
    hide Managed, VaultInv, BoundAs;
  }

  lemma UnsharedStep(s: State, a: Action)
    requires SeatInv(s) && VaultInv(s.cabinet) && Enabled(s, a) && Unshared(s.cabinet)
    ensures Unshared(Step(s, a).cabinet)
  {
    hide Unshared, VaultInv, Used, Managed, SeatInv;
    if a.Use? {
      UseIs(s, a.luck);
      RunningJobIsHome(s);
      UnsharedAfterUse(s.cabinet, s.desk.running.job, a.luck);
    } else if a.Manage? {
      UnsharedAfterManage(s.cabinet, s.desk.running.job, a.luck);
    } else if !OfWorker(a) {
      UiLeavesCabinet(s, a);
    } else {
      hide Passes, IsVisible, AfterAttach, AfterDetach, AfterCapture, AfterRequest, AfterClear, AfterForgetAll;
      SameRecords(s.cabinet, Step(s, a).cabinet);
    }
  }

  lemma SameRecords(c: Cabinet, d: Cabinet)
    requires Unshared(c) && d.registry == c.registry && d.log == c.log
    ensures Unshared(d)
  {
  }

  /**
   * No two accounts and no two slots ever reach the same generation, if the registry that earlier processes left binds
   * none to two slots; and what this process leaves behind again binds none to two slots.
   */
  lemma {:induction false} NoGenerationIsShared(states: seq<State>, actions: seq<Action>, slots: nat, i: nat)
    requires Run(states, actions, slots) && i < |states| && OneSlotEach(states[0].cabinet.registry)
    ensures Unshared(states[i].cabinet)
  {
    hide *;
    RunAt(states, actions, slots, i);
    if i == 0 {
      UnsharedAtFirst(states[0], slots);
    } else {
      NoGenerationIsShared(states, actions, slots, i - 1);
      RunKeepsInv(states, actions, slots, i - 1);
      InvParts(states[i - 1]);
      UnsharedStep(states[i - 1], actions[i - 1]);
    }
  }

  lemma UnsharedAtFirst(s: State, slots: nat)
    requires Starts(s, slots) && OneSlotEach(s.cabinet.registry)
    ensures Unshared(s.cabinet)
  {
  }

  // ----- nothing is lost without a reason

  /** The account of binding `b` finds it bound to slot `x`, and nothing is on its way to take it away. */
  predicate Standing(r: Registry, x: nat, b: Binding) {
    x in r.bindings && r.bindings[x] == b && !r.resetPending && x !in r.retiring
  }

  /**
   * The steps that may take a slot's generation away: forgetting everything, a logout of its own account, a clear, or
   * a use of the slot by another account, by a fresh login or with a clear still pending.
   */
  predicate Endangers(s: State, a: Action, x: nat, b: Binding) {
    s.desk.running.Busy? && var job := s.desk.running.job;
      (a.Manage? && (job.ForgetJob?
          || (job.DetachJob? && job.loggedOut && job.handle.slot == x && Owns(b, job.handle))))
          || (a.Use? && Ticketed(job) && job.ticket.handle.slot == x
          && (job.ClearJob? || !Owns(b, job.ticket.handle)
          || (x < |s.cabinet.slots| && (s.cabinet.slots[x].clearPending || s.cabinet.slots[x].freshLogin))))
  }

  /** Since entry `n` of the log slot `x` has only reached the generation of `b`, which is still bound to it. */
  ghost predicate StillHas(s: State, n: nat, x: nat, b: Binding) {
    && Standing(s.cabinet.registry, x, b) && n <= |s.cabinet.log|
    && forall k :: n <= k < |s.cabinet.log| && s.cabinet.log[k].ticket.handle.slot == x
                   && s.cabinet.log[k].vault.Some? ==>
                     Reads(s.cabinet.log[k], b.generation)
  }

  lemma ReachedStands(slot: Slot, r: Registry, h: Handle, luck: Luck, x: nat, b: Binding)
    requires SlotOk(slot, r, h.slot) && slot.session == Some(h) && Standing(r, x, b)
    requires h.slot == x ==> !slot.clearPending && !slot.freshLogin && Owns(b, h)
    ensures var (next, registry, ok) := Reached(slot, r, h, luck);
            && Standing(registry, x, b)
            && (ok && h.slot == x ==> next.vault.Some? && next.vault.value.generation == b.generation)
  {
    hide *;
    ReachedOf(slot, r, h, luck);
    ClearStageStands(slot, r, h, luck, x, b);
    var (cleared, r1, first) := ClearStage(slot, r, h, luck);
    if first {
      OpenStageStands(cleared, r1, h, luck, x, b);
      VaultKept(OpenStage(cleared, r1, h, luck).0, luck);
    }
  }

  lemma ClearStageStands(slot: Slot, r: Registry, h: Handle, luck: Luck, x: nat, b: Binding)
    requires SlotOk(slot, r, h.slot) && Standing(r, x, b) && (h.slot == x ==> !slot.clearPending)
    ensures var (next, registry, ok) := ClearStage(slot, r, h, luck);
            && Standing(registry, x, b) && (h.slot == x ==> next == slot && registry == r)
  {
  }

  lemma OpenStageStands(slot: Slot, r: Registry, h: Handle, luck: Luck, x: nat, b: Binding)
    requires Standing(r, x, b)
    requires h.slot == x ==> SlotOk(slot, r, x) && !slot.freshLogin && Owns(b, h)
    ensures var (next, registry, ok) := OpenStage(slot, r, h, luck);
            && Standing(registry, x, b)
            && (ok && h.slot == x ==> next.vault.Some? && next.vault.value.generation == b.generation)
  {
  }

  lemma VaultKept(slot: Slot, luck: Luck)
    ensures ReadyStage(slot, luck).0.vault == slot.vault
  {
  }

  lemma UsedStillHas(s: State, luck: Luck, n: nat, x: nat, b: Binding)
    requires SeatInv(s) && VaultInv(s.cabinet) && Enabled(s, Use(luck)) && StillHas(s, n, x, b)
    requires !Endangers(s, Use(luck), x, b)
    ensures StillHas(Step(s, Use(luck)), n, x, b)
  {
    UseIs(s, luck);
    RunningJobIsHome(s);
    var c, job := s.cabinet, s.desk.running.job;
    var h := job.ticket.handle;
    UsedParts(c, job, luck);
    MarkedIsOk(c.slots[h.slot], job, c.registry, h.slot);
    ReachedStands(Marked(c.slots[h.slot], job), c.registry, h, luck, x, b);
    hide SeatInv, VaultInv, Used, Reached, Standing, Owns, SlotOk;
  }

  lemma ManagedStillHas(c: Cabinet, job: Job, luck: Luck, x: nat, b: Binding)
    requires !Ticketed(job) && (!job.ForgetJob? ==> job.handle.slot < |c.slots|) && Standing(c.registry, x, b)
    requires !job.ForgetJob? && !(job.DetachJob? && job.loggedOut && job.handle.slot == x && Owns(b, job.handle))
    ensures Standing(Managed(c, job, luck).registry, x, b) && Managed(c, job, luck).log == c.log
  {
  }

  lemma StillHasStep(s: State, a: Action, n: nat, x: nat, b: Binding)
    requires SeatInv(s) && VaultInv(s.cabinet) && Enabled(s, a) && StillHas(s, n, x, b) && !Endangers(s, a, x, b)
    ensures StillHas(Step(s, a), n, x, b)
  {
    hide VaultInv, Used, Managed, SeatInv, Standing, Owns;
    if a.Use? {
      UsedStillHas(s, a.luck, n, x, b);
    } else if a.Manage? {
      ManagedStillHas(s.cabinet, s.desk.running.job, a.luck, x, b);
    } else if !OfWorker(a) {
      UiLeavesCabinet(s, a);
    } else {
      hide Passes, IsVisible, AfterAttach, AfterDetach, AfterCapture, AfterRequest, AfterClear, AfterForgetAll;
    }
  }

  /**
   * An archive is kept: as long as nobody forgets everything, clears it, logs its account out or uses its slot for
   * another account or a fresh login, every session of the slot reaches the same generation, whatever else fails.
   */
  lemma {:induction false} ArchiveIsKept(states: seq<State>, actions: seq<Action>, slots: nat, p: nat, i: nat, x: nat,
      b: Binding)
    requires Run(states, actions, slots) && p <= i < |states| && Standing(states[p].cabinet.registry, x, b)
    requires forall r :: p <= r < i ==> !Endangers(states[r], actions[r], x, b)
    ensures StillHas(states[i], |states[p].cabinet.log|, x, b)
    decreases i
  {
    hide *;
    if p == i {
      StandingHas(states[p], x, b);
    } else {
      ArchiveIsKept(states, actions, slots, p, i - 1, x, b);
      RunAt(states, actions, slots, i);
      RunKeepsInv(states, actions, slots, i - 1);
      InvParts(states[i - 1]);
      StillHasStep(states[i - 1], actions[i - 1], |states[p].cabinet.log|, x, b);
    }
  }

  lemma StandingHas(s: State, x: nat, b: Binding)
    requires Standing(s.cabinet.registry, x, b)
    ensures StillHas(s, |s.cabinet.log|, x, b)
  {
  }

  // ----- a capture that failed

  /** The capture in use fails: its archive is not reached, or storing it or cleaning up after it fails. */
  predicate CaptureFails(s: State, a: Action, x: nat)
    requires Enabled(s, a)
  {
    && a.Use? && s.desk.running.job.CaptureJob? && s.desk.running.job.ticket.handle.slot == x
    && (!a.luck.operation || a.luck.cleanup
        || (|Step(s, a).cabinet.log| > 0 && Step(s, a).cabinet.log[|Step(s, a).cabinet.log| - 1].vault.None?))
  }

  /** The step works on slot `x`, or takes up a session there. */
  predicate Touches(s: State, a: Action, x: nat) {
    Reseats(s, a, x)
    || (a.Use? && s.desk.running.Busy? && Ticketed(s.desk.running.job) && s.desk.running.job.ticket.handle.slot == x)
  }

  /** Slot `x` waits for its archive to be recovered. */
  predicate Ailing(s: State, x: nat) {
    s.desk.running.Exited? || (x < |s.cabinet.slots| && s.cabinet.slots[x].recoveryPending)
  }

  lemma FailsNow(s: State, a: Action, x: nat)
    requires Enabled(s, a) && SeatInv(s) && CaptureFails(s, a, x)
    ensures Ailing(Step(s, a), x)
  {
    UseIs(s, a.luck);
    RunningJobIsHome(s);
    UsedParts(s.cabinet, s.desk.running.job, a.luck);
    hide Reached, SeatInv;
  }

  lemma AilingStep(s: State, a: Action, x: nat)
    requires Enabled(s, a) && Ailing(s, x) && !Touches(s, a, x)
    ensures Ailing(Step(s, a), x)
  {
    if !OfWorker(a) {
      UiLeavesCabinet(s, a);
      hide Step, Enabled;
    } else if a.Use? {
      UsedParts(s.cabinet, s.desk.running.job, a.luck);
      hide Used, Reached;
    } else {
      hide Used, Reset, LoggedOut, IsVisible, IsCurrent;
    }
  }

  lemma {:induction false} AilingOn(states: seq<State>, actions: seq<Action>, slots: nat, p: nat, q: nat, x: nat)
    requires Run(states, actions, slots) && p <= q < |states| && Ailing(states[p], x)
    requires forall r :: p <= r < q ==> !Touches(states[r], actions[r], x)
    ensures Ailing(states[q], x)
    decreases q
  {
    hide *;
    if p < q {
      AilingOn(states, actions, slots, p, q - 1, x);
      RunAt(states, actions, slots, q);
      AilingStep(states[q - 1], actions[q - 1], x);
    }
  }

  lemma CuredNow(s: State, a: Action, x: nat)
    requires Enabled(s, a) && SeatInv(s) && Ailing(s, x) && a.Use? && Touches(s, a, x)
    ensures x < |s.cabinet.slots| && s.desk.running.Busy?
    ensures var log := Step(s, a).cabinet.log;
            |log| > 0 && (log[|log| - 1].vault.Some? ==>
              a.luck.recover || s.desk.running.job.ClearJob? || s.cabinet.slots[x].clearPending)
  {
    UseIs(s, a.luck);
    RunningJobIsHome(s);
    UsedParts(s.cabinet, s.desk.running.job, a.luck);
    var slot, h := Marked(s.cabinet.slots[x], s.desk.running.job), s.desk.running.job.ticket.handle;
    ReachedOf(slot, s.cabinet.registry, h, a.luck);
    OpenStageAils(ClearStage(slot, s.cabinet.registry, h, a.luck).0, ClearStage(slot, s.cabinet.registry, h,
        a.luck).1, h, a.luck);
    hide Used, Reached, SeatInv, OpenStage, Reset, LoggedOut;
  }

  lemma OpenStageAils(slot: Slot, r: Registry, h: Handle, luck: Luck)
    ensures OpenStage(slot, r, h, luck).0.recoveryPending == slot.recoveryPending
  {
  }

  /**
   * After a capture that failed, the next job of its slot reaches the archive only if the archive was recovered first,
   * unless a clear retires that archive instead.
   */
  lemma FailedCaptureIsRepairedFirst(states: seq<State>, actions: seq<Action>, slots: nat, p: nat, q: nat, x: nat)
    requires Run(states, actions, slots) && p < q < |actions|
    requires CaptureFails(states[p], actions[p], x) && actions[q].Use? && Touches(states[q], actions[q], x)
    requires forall r :: p < r < q ==> !Touches(states[r], actions[r], x)
    ensures var s, log := states[q], states[q + 1].cabinet.log;
            && x < |s.cabinet.slots| && |log| > 0 && s.desk.running.Busy?
            && (log[|log| - 1].vault.Some? ==>
                  actions[q].luck.recover || s.desk.running.job.ClearJob? || s.cabinet.slots[x].clearPending)
  {
    hide Starts, Step, Enabled, CaptureFails, Touches, Ailing, Inv;
    RunAt(states, actions, slots, p + 1);
    RunAt(states, actions, slots, q + 1);
    RunKeepsInv(states, actions, slots, p);
    InvParts(states[p]);
    FailsNow(states[p], actions[p], x);
    hide *;
    AilingOn(states, actions, slots, p + 1, q, x);
    RunKeepsInv(states, actions, slots, q);
    InvParts(states[q]);
    CuredNow(states[q], actions[q], x);
  }
}
