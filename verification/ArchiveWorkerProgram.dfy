/**
 * The archive worker as the program has it: one object whose calls, on the UI thread and on the worker thread, change
 * its fields in place.  The object keeps a ghost trace of its own life; every call extends it by one step of the
 * protocol, so the trace is a run, and what is proved of every run holds of the object.
 */
module ArchiveWorkerProgram {
  import opened Common
  import opened SnapshotCodec
  import opened CatalogCodec
  import opened ArchiveWorker

  /** Every call is one step of the protocol's clock. */
  function Ticked(s: State): State { s.(clock := s.clock + 1) }

  function AfterUse(s: State, luck: Luck): State
    requires s.desk.running.Busy? && Ticketed(s.desk.running.job)
    requires s.desk.running.job.ticket.handle.slot < |s.cabinet.slots|
  {
    Staged(s.(cabinet := Used(s.cabinet, s.desk.running.job, luck)), Posting)
  }

  lemma UiCallsAreSteps(s: State, a: Action)
    requires Enabled(s, a) && !OfWorker(a) && !a.RunCallback?
    ensures Step(s, a) == Ticked(
      if a.Attach? then AfterAttach(s, a.slot, a.owner, a.freshLogin, a.authorization)
      else if a.Detach? then AfterDetach(s, a.id, a.loggedOut)
      else if a.SetLocked? then s.(ui := AfterSetLocked(s.ui, a.locked))
      else if a.SetEnabled? then s.(ui := AfterSetEnabled(s.ui, a.id, a.value))
      else if a.Capture? then AfterCapture(s, a.id, a.sizes, a.done)
      else if a.Request? then AfterRequest(s, a.id, a.done)
      else if a.Clear? then AfterClear(s, a.id, a.done)
      else if a.ForgetAll? then AfterForgetAll(s)
      else AfterDestroy(s))
  {
    hide Used, IsId, Emptied, Unseated, Admissible;
  }

  lemma WorkerTurnsAreSteps(s: State, a: Action)
    requires Enabled(s, a) && OfWorker(a) && !a.Exit?
    ensures a.Pop? ==>
              Step(s, a) == Ticked(s.(desk :=
                s.desk.(queue := s.desk.queue[1..], running := Busy(s.desk.queue[0], Entered))))
    ensures a.Check? ==> Step(s, a) == Ticked(Staged(s, if Passes(s.ui, s.desk.running.job) then Using else Wiping))
    ensures a.Use? ==> Step(s, a) == Ticked(AfterUse(s, a.luck))
    ensures a.Post? ==> Step(s, a) == Ticked(AfterPost(s))
    ensures a.ReleaseBytes? ==> Step(s, a) == Ticked(AfterReleaseBytes(s))
    ensures a.Release? ==> Step(s, a) == Ticked(AfterRelease(s))
    ensures a.Manage? ==>
              Step(s, a) == Ticked(s.(cabinet := Managed(s.cabinet, s.desk.running.job, a.luck),
                desk := s.desk.(running := Resting)))
  {
    hide Used, Managed, Passes, IsVisible;
  }

  lemma EmptiedParts(u: Ui)
    ensures Emptied(u) == u.(sessions := Emptied(u).sessions, seats := seq(|u.seats|, _ => None))
  {
  }

  /** Nobody is left alive. */
  lemma EmptiedIsSilent(u: Ui)
    requires UiInv(u)
    ensures |Emptied(u).sessions| == |u.sessions|
    ensures forall k :: 0 <= k < |u.sessions| ==> !Emptied(u).sessions[k].live
  {
  }

  lemma RunGrows(states: seq<State>, actions: seq<Action>, slots: nat, a: Action)
    requires Run(states, actions, slots) && Enabled(states[|actions|], a)
    ensures Run(states + [Step(states[|actions|], a)], actions + [a], slots)
  {
    hide Starts, Enabled, Step;
  }

  lemma RunLength(states: seq<State>, actions: seq<Action>, slots: nat)
    requires Run(states, actions, slots)
    ensures |states| == |actions| + 1
  {
    hide Starts, Enabled, Step;
  }

  lemma RunStarts(s: State, slots: nat)
    requires Starts(s, slots)
    ensures Run([s], [], slots)
  {
    hide Starts;
  }

  /** The job in hand is for a slot there is, and not for one the worker has no storage for. */
  lemma RunningIsInRange(s: State)
    requires Inv(s) && s.desk.running.Busy?
    ensures InRange(s.desk.running.job, |s.cabinet.slots|)
  {
    assert Pending(s.desk)[0] == s.desk.running.job && s.desk.running.job in Pending(s.desk);
    hide DeskInv, UiInv, Housed, VaultInv, AttachInv, Legit;
  }

  /** The session to be detached is there. */
  lemma DetachFinds(s: State)
    requires Inv(s) && s.desk.running.Busy? && s.desk.running.job.DetachJob?
    ensures var h := s.desk.running.job.handle;
              h.slot < |s.cabinet.slots| && s.cabinet.slots[h.slot].session == Some(h)
  {
    InvParts(s);
    RunningJobIsHome(s);
    hide Inv, SeatInv;
  }

  lemma DeliveredExactly(states: seq<State>, actions: seq<Action>, slots: nat, t: Ticket)
    requires Run(states, actions, slots) && states[|actions|].ui.mailbox != []
    requires t == states[|actions|].ui.mailbox[0]
    ensures t.admitted < |actions|
    ensures IsVisible(states[|actions|].ui, t) <==>
            && !states[t.admitted].ui.gate.locked
            && forall k :: t.admitted < k < |actions| ==> !Revokes(states[k], actions[k], t.handle.id)
  {
    hide Starts, Step, Enabled, IsVisible, Revokes;
    assert Carried(states[|actions|], t);
    VisibleExactly(states, actions, slots, |actions|, t);
  }

  class Worker {
    // UI thread
    var gate: Gate
    var sessions: seq<Session>
    var seats: seq<Option<Handle>>
    var mailbox: seq<Ticket>
    // shared
    var queue: seq<Job>
    var counters: Counters
    var stopping: bool
    // worker thread
    var running: Running
    var slots: seq<Slot>
    var registry: Registry
    ghost var log: seq<Entry>
    var clock: nat
    // the object's life so far
    const count: nat
    ghost var states: seq<State>
    ghost var actions: seq<Action>

    ghost function Front(): Ui
      reads `gate, `sessions, `seats, `mailbox
    {
      Ui(gate, sessions, seats, mailbox)
    }

    ghost function Middle(): Desk
      reads `queue, `running, `counters, `stopping
    {
      Desk(queue, running, counters, stopping)
    }

    ghost function Back(): Cabinet
      reads `slots, `registry, `log
    {
      Cabinet(slots, registry, log)
    }

    ghost function Abstract(): State
      reads `gate, `sessions, `seats, `mailbox, `queue, `running, `counters, `stopping, `slots, `registry, `log, `clock
    {
      State(Front(), Middle(), Back(), clock)
    }

    /** The trace is a run of the protocol and ends with the present state. */
    ghost predicate Valid()
      reads this
    {
      Run(states, actions, count) && states[|actions|] == Abstract()
    }

    /** What one call does to the trace. */
    twostate predicate Stepped(a: Action)
      reads this
    {
      && old(Valid()) && Valid() && Enabled(old(Abstract()), a) && Abstract() == Step(old(Abstract()), a)
      && actions == old(actions) + [a] && states == old(states) + [Abstract()]
    }

    /** The program refuses anything else: 1 to 256 slots; the registry reads only well-formed bindings. */
    constructor (count: nat, bindings: map<nat, Binding>, used: set<nat>, retiring: set<nat>)
      requires 1 <= count <= 256 && Starts(Initial(count, bindings, used, retiring), count)
      ensures Valid() && Abstract() == Initial(count, bindings, used, retiring) && actions == [] && this.count == count
    {
      this.count := count;
      gate, sessions, mailbox := Gate(true, false, 0), [], [];
      seats := seq(count, _ => None);
      queue, counters, stopping := [], Counters(0, 0, 0, 0), false;
      running, registry, log, clock := Resting, Registry(bindings, used, false, retiring), [], 0;
      slots := seq(count, _ => EMPTY_SLOT);
      states, actions := [Initial(count, bindings, used, retiring)], [];
      new;
      RunStarts(Initial(count, bindings, used, retiring), count);
      hide Run, Starts;
    }

    /** Notes in the trace the step a call is about to take. */
    ghost method Begin(a: Action)
      requires Valid() && Enabled(Abstract(), a)
      modifies `states, `actions
      ensures Run(states, actions, count) && Enabled(old(Abstract()), a)
      ensures actions == old(actions) + [a] && states == old(states) + [Step(old(Abstract()), a)]
    {
      hide Run, Enabled, Step;
      RunGrows(states, actions, count, a);
      states, actions := states + [Step(Abstract(), a)], actions + [a];
    }

    /** Notes in the trace the step a call has taken. */
    ghost method Record(a: Action, before: State)
      requires Run(states, actions, count) && states[|actions|] == before && Enabled(before, a)
      requires Abstract() == Step(before, a)
      modifies `states, `actions
      ensures Valid() && actions == old(actions) + [a] && states == old(states) + [Abstract()]
    {
      hide Run, Enabled, Step;
      RunGrows(states, actions, count, a);
      states, actions := states + [Abstract()], actions + [a];
      RunLength(states, actions, count);
    }

    ghost method Known()
      requires Valid()
      ensures Inv(Abstract()) && UiInv(Front()) && clock == |actions|
    {
      hide Inv, UiInv, Step, Enabled, Starts;
      RunKeepsInv(states, actions, count, |actions|);
      UiOfInv(Abstract());
    }

    method Enqueue(job: Job)
      modifies `queue
      ensures queue == old(queue) + [job]
    {
      queue := queue + [job];
    }

    method DetachSession(id: nat, loggedOut: bool)
      modifies `sessions, `seats, `queue
      ensures Abstract() == AfterDetach(old(Abstract()), id, loggedOut)
    {
      if id >= |sessions| || sessions[id].handle.slot >= |seats|
          || seats[sessions[id].handle.slot] != Some(sessions[id].handle) {
        return;
      }
      var session := sessions[id];
      sessions := sessions[id := session.(live := false, revision := session.revision + 1)];
      seats := seats[session.handle.slot := None];
      Enqueue(DetachJob(session.handle, loggedOut));
    }

    // ----- the UI thread

    method SeatSession(slot: int, owner: nat, freshLogin: bool, authorization: Bytes) returns (handle: Option<Handle>)
      modifies `sessions, `seats, `queue, `clock
      ensures Abstract() == Ticked(AfterAttach(old(Abstract()), slot, owner, freshLogin, authorization))
      ensures handle.Some? <==> 0 <= slot < |old(seats)| && owner > 0 && IsId(authorization)
      ensures handle.Some? ==>
                && seats[slot] == handle && handle == Some(Handle(|old(sessions)|, slot, owner, authorization))
                && queue != [] && queue[|queue| - 1] == AttachJob(handle.value, freshLogin)
    {
      clock := clock + 1;
      if slot < 0 || slot >= |seats| || owner == 0 || !IsId(authorization) {
        return None;
      }
      label Checked:
      hide IsId;
      if seats[slot].Some? {
        DetachSession(seats[slot].value.id, false);
      }
      handle := Some(Handle(|sessions|, slot, owner, authorization));
      sessions := sessions + [Session(handle.value, true, false, 0)];
      seats := seats[slot := handle];
      Enqueue(AttachJob(handle.value, freshLogin));
    }

    method CallAttach(slot: int, owner: nat, freshLogin: bool, authorization: Bytes) returns (handle: Option<Handle>)
      requires Valid() && !stopping
      modifies this
      ensures Stepped(Attach(slot, owner, freshLogin, authorization))
      ensures handle.Some? <==> 0 <= slot < |old(seats)| && owner > 0 && IsId(authorization)
      ensures handle.Some? ==>
                && |seats| > slot && seats[slot] == handle
                && handle == Some(Handle(|old(sessions)|, slot, owner, authorization))
                && queue != [] && queue[|queue| - 1] == AttachJob(handle.value, freshLogin)
    {
      ghost var s, a := Abstract(), Attach(slot, owner, freshLogin, authorization);
      UiCallsAreSteps(s, a);
      hide Run, Step, IsId, AfterAttach;
      handle := SeatSession(slot, owner, freshLogin, authorization);
      Record(a, s);
    }

    method CallDetach(id: nat, loggedOut: bool)
      requires Valid() && !stopping
      modifies this
      ensures Stepped(Detach(id, loggedOut))
      ensures queue == old(queue) + if Seated(old(Front()), id) then [DetachJob(old(sessions)[id].handle, loggedOut)]
                else []
    {
      ghost var s := Abstract();
      UiCallsAreSteps(s, Detach(id, loggedOut));
      hide Run, Step;
      clock := clock + 1;
      DetachSession(id, loggedOut);
      Record(Detach(id, loggedOut), s);
    }

    method CallSetLocked(value: bool)
      requires Valid() && !stopping
      modifies this
      ensures Stepped(SetLocked(value))
      ensures gate.locked == value && gate.alive == old(gate).alive
      ensures gate.epoch == old(gate).epoch + if value == old(gate).locked then 0 else 1
    {
      ghost var s := Abstract();
      UiCallsAreSteps(s, SetLocked(value));
      hide Run, Step;
      clock := clock + 1;
      if gate.locked != value {
        gate := gate.(locked := value, epoch := gate.epoch + 1);
      }
      Record(SetLocked(value), s);
    }

    method CallSetEnabled(id: nat, value: bool)
      requires Valid() && !stopping
      modifies this
      ensures Stepped(SetEnabled(id, value))
      ensures forall k :: 0 <= k < |sessions| ==>
                sessions[k].enabled == if k == id && old(sessions)[k].live && old(gate).alive then value
                else old(sessions)[k].enabled
    {
      ghost var s := Abstract();
      UiCallsAreSteps(s, SetEnabled(id, value));
      hide Run, Step;
      clock := clock + 1;
      if id < |sessions| && sessions[id].live && gate.alive {
        sessions := sessions[id := sessions[id].(enabled := value)];
      }
      Record(SetEnabled(id, value), s);
    }

    method AdmitCapture(id: nat, z: Sizes, done: bool) returns (accepted: bool)
      modifies `queue, `counters, `clock
      ensures Abstract() == Ticked(AfterCapture(old(Abstract()), id, z, done))
      ensures accepted <==> CaptureEnabled(old(Front()), id) && Admissible(old(Middle()).counters, z)
    {
      clock := clock + 1;
      var weight := z.text + z.content + z.mime + 192;
      if id >= |sessions| || !sessions[id].live || !gate.alive || !sessions[id].enabled {
        return false;
      }
      if z.reader && counters.media >= MEDIA_CAPTURES {
        return false;
      }
      if !z.reader && counters.text >= TEXT_CAPTURES {
        return false;
      }
      if weight > TEXT_BYTES || counters.bytes > TEXT_BYTES - weight || z.bytes > MAX_MEDIA_BYTES {
        return false;
      }
      if (z.bytes != 0) != z.reader || z.text > 60000 || z.content > 60000 || z.mime > 128 {
        return false;
      }
      if z.reader {
        counters := counters.(media := counters.media + 1);
      } else {
        counters := counters.(text := counters.text + 1);
      }
      counters := counters.(bytes := counters.bytes + weight);
      Enqueue(CaptureJob(Ticket(sessions[id].handle, sessions[id].revision, gate.epoch, clock - 1, done), z.reader,
          weight));
      return true;
    }

    method CallCapture(id: nat, z: Sizes, done: bool) returns (accepted: bool)
      requires Valid() && !stopping
      modifies this
      ensures Stepped(Capture(id, z, done))
      ensures accepted <==>
              && id < |old(sessions)| && old(sessions)[id].live && old(sessions)[id].enabled && old(gate).alive
              && (if z.reader then old(counters).media < 4 else old(counters).text < 2000)
              && old(counters).bytes + z.text + z.content + z.mime + 192 <= 64 * 1024 * 1024
              && (z.reader <==> 0 < z.bytes) && z.bytes <= 32 * 1024 * 1024
              && z.text <= 60000 && z.content <= 60000 && z.mime <= 128
      ensures accepted ==>
                && queue == old(queue) + [CaptureJob(Ticket(old(sessions)[id].handle, old(sessions)[id].revision,
                    old(gate).epoch, old(clock), done), z.reader, z.text + z.content + z.mime + 192)]
                && counters.bytes == old(counters).bytes + z.text + z.content + z.mime + 192
      ensures !accepted ==> queue == old(queue) && counters == old(counters)
    {
      ghost var s, a := Abstract(), Capture(id, z, done);
      UiCallsAreSteps(s, a);
      hide Run, Step, AfterCapture, CaptureEnabled, Admissible;
      accepted := AdmitCapture(id, z, done);
      Record(a, s);
    }

    method AdmitRequest(id: nat, done: bool) returns (accepted: bool)
      modifies `queue, `counters, `clock
      ensures Abstract() == Ticked(AfterRequest(old(Abstract()), id, done))
      ensures accepted <==> Usable(old(Front()), id) && old(counters).requests < REQUESTS
      ensures queue == old(queue) + if accepted then [RequestJob(Ticket(old(sessions)[id].handle,
                    old(sessions)[id].revision, old(gate).epoch, old(clock), done))] else []
    {
      accepted := id < |sessions| && sessions[id].live && gate.alive && !gate.locked && counters.requests < REQUESTS;
      if accepted {
        counters := counters.(requests := counters.requests + 1);
        Enqueue(RequestJob(Ticket(sessions[id].handle, sessions[id].revision, gate.epoch, clock, done)));
      }
      clock := clock + 1;
    }

    method CallRequest(id: nat, done: bool) returns (accepted: bool)
      requires Valid() && !stopping
      modifies this
      ensures Stepped(Request(id, done))
      ensures accepted <==>
              && id < |old(sessions)| && old(sessions)[id].live && old(gate).alive && !old(gate).locked
              && old(counters).requests < 8
      ensures queue == old(queue) + if accepted then [RequestJob(Ticket(old(sessions)[id].handle,
                    old(sessions)[id].revision, old(gate).epoch, old(clock), done))] else []
    {
      ghost var s, a := Abstract(), Request(id, done);
      UiCallsAreSteps(s, a);
      hide Run, Step, AfterRequest;
      accepted := AdmitRequest(id, done);
      Record(a, s);
    }

    method AdmitClear(id: nat, done: bool)
      modifies `sessions, `queue, `clock
      ensures Abstract() == Ticked(AfterClear(old(Abstract()), id, done))
    {
      if id < |sessions| && sessions[id].live && gate.alive && !gate.locked {
        sessions := sessions[id := sessions[id].(revision := sessions[id].revision + 1)];
        Enqueue(ClearJob(Ticket(sessions[id].handle, sessions[id].revision, gate.epoch, clock, done)));
      }
      clock := clock + 1;
    }

    method CallClear(id: nat, done: bool)
      requires Valid() && !stopping
      modifies this
      ensures Stepped(Clear(id, done))
      ensures queue == old(queue) + if id < |old(sessions)| && old(sessions)[id].live && old(gate).alive
                && !old(gate).locked then [ClearJob(Ticket(old(sessions)[id].handle, old(sessions)[id].revision + 1,
                    old(gate).epoch, old(clock), done))] else []
    {
      ghost var s, a := Abstract(), Clear(id, done);
      UiCallsAreSteps(s, a);
      hide Run, Step, AfterClear;
      AdmitClear(id, done);
      Record(a, s);
    }

    /** The loop over the seats that silences every seated session. */
    method KillSeated()
      requires UiInv(Front())
      modifies `sessions
      ensures sessions == Emptied(old(Front())).sessions
    {
      for x := 0 to |seats|
        invariant |sessions| == |old(sessions)|
        invariant forall i :: 0 <= i < |sessions| ==>
          sessions[i] == if Seated(old(Front()), i) && old(sessions)[i].handle.slot < x
              then old(sessions)[i].(live := false) else old(sessions)[i]
      {
        if seats[x].Some? {
          var id := seats[x].value.id;
          sessions := sessions[id := sessions[id].(live := false)];
        }
      }
    }

    method Forget()
      requires UiInv(Front())
      modifies `gate, `sessions, `seats, `queue, `clock
      ensures Abstract() == Ticked(AfterForgetAll(old(Abstract())))
      ensures |seats| == |old(seats)| && (forall x :: 0 <= x < |seats| ==> seats[x].None?)
      ensures |sessions| == |old(sessions)| && forall k :: 0 <= k < |sessions| ==> !sessions[k].live
      ensures gate == old(gate).(epoch := old(gate).epoch + 1) && queue == old(queue) + [ForgetJob]
    {
      clock := clock + 1;
      EmptiedParts(Front());
      EmptiedIsSilent(Front());
      KillSeated();
      hide Emptied, UiInv;
      gate := gate.(epoch := gate.epoch + 1);
      seats := seq(|seats|, _ => None);
      Enqueue(ForgetJob);
    }

    method CallForgetAll()
      requires Valid() && !stopping
      modifies this
      ensures Stepped(ForgetAll)
      ensures |seats| == |old(seats)| && (forall x :: 0 <= x < |seats| ==> seats[x].None?)
      ensures |sessions| == |old(sessions)| && forall k :: 0 <= k < |sessions| ==> !sessions[k].live
      ensures gate == old(gate).(epoch := old(gate).epoch + 1) && queue == old(queue) + [ForgetJob]
    {
      hide Inv, UiInv, Run, Step, AfterForgetAll;
      Known();
      ghost var s := Abstract();
      UiCallsAreSteps(s, ForgetAll);
      Forget();
      Record(ForgetAll, s);
    }

    method Stop()
      requires UiInv(Front())
      modifies `gate, `sessions, `stopping, `clock
      ensures Abstract() == Ticked(AfterDestroy(old(Abstract())))
      ensures stopping && !gate.alive && queue == old(queue)
      ensures |sessions| == |old(sessions)| && forall k :: 0 <= k < |sessions| ==> !sessions[k].live
    {
      clock := clock + 1;
      EmptiedParts(Front());
      EmptiedIsSilent(Front());
      KillSeated();
      hide Emptied, UiInv;
      gate := gate.(alive := false);
      stopping := true;
    }

    method CallDestroy()
      requires Valid() && !stopping
      modifies this
      ensures Stepped(Destroy)
      ensures stopping && !gate.alive && queue == old(queue)
      ensures |sessions| == |old(sessions)| && forall k :: 0 <= k < |sessions| ==> !sessions[k].live
    {
      hide Inv, UiInv, Run, Step, AfterDestroy;
      Known();
      ghost var s := Abstract();
      UiCallsAreSteps(s, Destroy);
      Stop();
      Record(Destroy, s);
    }

    /**
     * Runs the oldest callback.  It delivers exactly if the screen was unlocked at the admission and nothing since has
     * revoked it.
     */
    method RunOldestCallback() returns (delivered: Option<Ticket>)
      requires Valid() && mailbox != []
      modifies this
      ensures Stepped(RunCallback) && mailbox == old(mailbox)[1..]
      ensures delivered == if IsVisible(old(Front()), old(mailbox)[0]) then Some(old(mailbox)[0]) else None
      ensures old(mailbox)[0].admitted < |old(states)|
      ensures var t := old(mailbox)[0];
              delivered.Some? <==>
              && !old(states)[t.admitted].ui.gate.locked
              && forall k :: t.admitted < k < |old(actions)| ==>
                   !Revokes(old(states)[k], old(actions)[k], t.handle.id)
    {
      var t := mailbox[0];
      ghost var before := Abstract();
      DeliveredExactly(states, actions, count, t);
      Begin(RunCallback);
      clock := clock + 1;
      mailbox := mailbox[1..];
      hide Run, Enabled, Revokes;
      var visible := t.handle.id < |sessions| && sessions[t.handle.id].live && gate.alive
          && sessions[t.handle.id].revision == t.revision
        && !gate.locked && gate.epoch == t.epoch;
      assert Abstract() == Step(before, RunCallback) && (visible <==> IsVisible(before.ui, t));
      delivered := if visible then Some(t) else None;
    }

    // ----- the worker thread

    /** The head of the loop. */
    method TakeJob()
      requires Valid() && running.Resting? && queue != []
      modifies this
      ensures Stepped(Pop)
      ensures running.Busy? && [running.job] + queue == old(queue)
    {
      ghost var s := Abstract();
      WorkerTurnsAreSteps(s, Pop);
      hide Run, Step;
      clock := clock + 1;
      running := Busy(queue[0], Entered);
      queue := queue[1..];
      Record(Pop, s);
    }

    /** Captures and clears only need their session, requests also the screen they were made on. */
    method CheckJob() returns (worked: bool)
      requires Valid() && AtStage(Abstract(), Entered) && Ticketed(running.job)
      modifies this
      ensures Stepped(Check)
      ensures worked <==> Passes(old(Front()), old(running).job)
    {
      ghost var s := Abstract();
      WorkerTurnsAreSteps(s, Check);
      hide Run, Step;
      clock := clock + 1;
      var job := running.job;
      var t := job.ticket;
      worked := t.handle.id < |sessions| && sessions[t.handle.id].live && gate.alive
          && sessions[t.handle.id].revision == t.revision
        && (job.RequestJob? ==> !gate.locked && gate.epoch == t.epoch);
      running := Busy(job, if worked then Using else Wiping);
      Record(Check, s);
    }

    method ResetRegistry(luck: Luck) returns (ok: bool)
      modifies `registry
      ensures (registry, ok) == Reset(old(registry), luck)
    {
      if !registry.resetPending {
        return true;
      }
      if luck.reset {
        registry := registry.(bindings := map[], resetPending := false);
        return true;
      }
      registry := registry.(bindings := registry.bindings - luck.erased,
                            retiring := registry.retiring + luck.noted * registry.bindings.Keys);
      return false;
    }

    /** Retires the generation a clear has marked. */
    method Retire(handle: Handle, luck: Luck) returns (ok: bool)
      requires handle.slot < |slots|
      modifies `slots, `registry
      ensures var (slot, after, done) := ClearStage(old(slots)[handle.slot], old(registry), handle, luck);
              ok == done && registry == after && slots == old(slots)[handle.slot := slot]
      ensures !old(slots)[handle.slot].clearPending ==> ok && slots == old(slots) && registry == old(registry)
      ensures old(slots)[handle.slot].clearPending ==>
                var slot := slots[handle.slot];
                && slot.session == old(slots)[handle.slot].session && slot.vault.None? && !slot.archive
                && (if ok then slot.freshLogin && !slot.clearPending && !slot.recoveryPending else slot.clearPending)
    {
      hide Reset, LoggedOut;
      if !slots[handle.slot].clearPending {
        return true;
      }
      slots := slots[handle.slot := slots[handle.slot].(archive := false, vault := None)];
      var ready := ResetRegistry(luck);
      if !ready {
        return false;
      }
      var (left, gone) := LoggedOut(registry, handle, luck);
      registry := left;
      if !gone {
        return false;
      }
      slots := slots[handle.slot :=
          slots[handle.slot].(freshLogin := true, clearPending := false, recoveryPending := false)];
      return true;
    }

    method OpenVault(handle: Handle, luck: Luck) returns (ok: bool)
      requires handle.slot < |slots|
      modifies `slots, `registry
      ensures var (slot, after, done) := OpenStage(old(slots)[handle.slot], old(registry), handle, luck);
              ok == done && registry == after && slots == old(slots)[handle.slot := slot]
      ensures ok ==> slots[handle.slot].vault.Some?
      ensures ok && old(slots)[handle.slot].vault.None? ==> !slots[handle.slot].freshLogin
      ensures !ok ==> slots == old(slots)
    {
      hide Reset, Opened;
      if slots[handle.slot].vault.Some? {
        return true;
      }
      var ready := ResetRegistry(luck);
      if !ready {
        return false;
      }
      var (next, vault) := Opened(registry, handle, slots[handle.slot].freshLogin, luck);
      registry := next;
      if vault.None? {
        return false;
      }
      slots := slots[handle.slot := slots[handle.slot].(vault := vault, freshLogin := false)];
      return true;
    }

    /** The program's `store`: retire what was cleared, open what is closed, repair what may be torn. */
    method Reach(handle: Handle, luck: Luck) returns (ok: bool)
      requires handle.slot < |slots|
      modifies `slots, `registry
      ensures var (slot, after, reached) := Reached(old(slots)[handle.slot], old(registry), handle, luck);
              ok == reached && registry == after && slots == old(slots)[handle.slot := slot]
    {
      hide ClearStage, OpenStage;
      if slots[handle.slot].session != Some(handle) {
        return false;
      }
      ok := Retire(handle, luck);
      if !ok {
        return;
      }
      ok := OpenVault(handle, luck);
      if !ok {
        return;
      }
      if !slots[handle.slot].archive {
        if !luck.archive {
          return false;
        }
        slots := slots[handle.slot := slots[handle.slot].(archive := true)];
      }
      if slots[handle.slot].recoveryPending {
        if !luck.recover {
          return false;
        }
        slots := slots[handle.slot := slots[handle.slot].(recoveryPending := false)];
      }
      return true;
    }

    /** An admitted job uses the storage. */
    method ServeJob(job: Job, luck: Luck)
      requires Ticketed(job) && job.ticket.handle.slot < |slots|
      modifies `slots, `registry, `log
      ensures Back() == Used(old(Back()), job, luck)
    {
      hide Reached;
      var x := job.ticket.handle.slot;
      if job.ClearJob? {
        slots := slots[x := slots[x].(clearPending := true)];
      }
      var ok := Reach(job.ticket.handle, luck);
      log := log + [Entry(job.ticket, job.ClearJob?, if ok then slots[x].vault else None)];
      if job.CaptureJob? {
        slots := slots[x := slots[x].(recoveryPending := !ok || !luck.operation || luck.cleanup)];
      }
    }

    method UseStorage(luck: Luck)
      requires Valid() && AtStage(Abstract(), Using) && Ticketed(running.job) && luck.generation !in registry.used
      modifies this
      ensures Stepped(Use(luck))
    {
      hide Inv, UiInv, Run, Used;
      Known();
      ghost var s := Abstract();
      RunningIsInRange(s);
      WorkerTurnsAreSteps(s, Use(luck));
      hide Step;
      ServeJob(running.job, luck);
      running := Busy(running.job, Posting);
      clock := clock + 1;
      Record(Use(luck), s);
    }

    /** A result nobody may see any more is not posted at all. */
    method PostResult()
      requires Valid() && AtStage(Abstract(), Posting) && Ticketed(running.job)
      modifies this
      ensures Stepped(Post)
      ensures var t := old(running).job.ticket;
              mailbox == old(mailbox) + if t.done && IsVisible(old(Front()), t) then [t] else []
    {
      ghost var s := Abstract();
      WorkerTurnsAreSteps(s, Post);
      hide Run, Step;
      clock := clock + 1;
      var t := running.job.ticket;
      if t.done && t.handle.id < |sessions| && sessions[t.handle.id].live && gate.alive
          && sessions[t.handle.id].revision == t.revision
         && !gate.locked && gate.epoch == t.epoch {
        mailbox := mailbox + [t];
      }
      running := Busy(running.job, Wiping);
      Record(Post, s);
    }

    method GiveBackBytes()
      requires Valid() && AtStage(Abstract(), Wiping)
      modifies this
      ensures Stepped(ReleaseBytes)
    {
      ghost var s := Abstract();
      WorkerTurnsAreSteps(s, ReleaseBytes);
      hide Run, Step;
      clock := clock + 1;
      if running.job.CaptureJob? {
        counters := counters.(bytes := counters.bytes - running.job.weight);
      }
      running := Busy(running.job, Releasing);
      Record(ReleaseBytes, s);
    }

    method GiveBackPlace()
      requires Valid() && AtStage(Abstract(), Releasing)
      modifies this
      ensures Stepped(Release)
    {
      ghost var s := Abstract();
      WorkerTurnsAreSteps(s, Release);
      hide Run, Step;
      clock := clock + 1;
      if running.job.CaptureJob? && running.job.media {
        counters := counters.(media := counters.media - 1);
      } else if running.job.CaptureJob? {
        counters := counters.(text := counters.text - 1);
      } else if running.job.RequestJob? {
        counters := counters.(requests := counters.requests - 1);
      }
      running := Resting;
      Record(Release, s);
    }

    /** Closes what every slot has open. */
    method CloseAll()
      modifies `slots
      ensures slots == seq(|old(slots)|, i requires 0 <= i < |old(slots)| =>
                  old(slots)[i].(session := None, vault := None, archive := false))
    {
      for x := 0 to |slots|
        invariant |slots| == |old(slots)|
        invariant forall i :: 0 <= i < |slots| ==>
                      slots[i] == if i < x then old(slots)[i].(session := None, vault := None, archive := false)
                        else old(slots)[i]
      {
        slots := slots[x := slots[x].(session := None, vault := None, archive := false)];
      }
    }

    method LogOut(handle: Handle, luck: Luck)
      modifies `registry
      ensures var (reset, ready) := Reset(old(registry), luck);
                registry == if ready then LoggedOut(reset, handle, luck).0 else reset
    {
      hide Reset, LoggedOut;
      var ready := ResetRegistry(luck);
      if ready {
        registry := LoggedOut(registry, handle, luck).0;
      }
    }

    method SettleSessions(job: Job, luck: Luck)
      requires !Ticketed(job) && InRange(job, |slots|)
      modifies `slots, `registry
      ensures Back() == Managed(old(Back()), job, luck) && |slots| == |old(slots)|
      ensures job.AttachJob? ==>
                var seated := Slot(Some(job.handle), None, false, job.freshLogin, false, false);
                registry == old(registry) && slots == old(slots)[job.handle.slot := seated]
      ensures job.DetachJob? && old(slots)[job.handle.slot].session == Some(job.handle) ==>
                && slots[job.handle.slot].session.None?
                && slots[job.handle.slot].vault.None? && (!job.loggedOut ==> registry == old(registry))
      ensures job.ForgetJob? ==>
                && (forall x :: 0 <= x < |slots| ==>
                      slots[x].session.None? && slots[x].vault.None? && !slots[x].archive)
                && (if luck.reset then registry.bindings == map[] && !registry.resetPending else registry.resetPending)
    {
      hide LoggedOut;
      match job {
        case AttachJob(h, freshLogin) =>
          slots := slots[h.slot := Slot(Some(h), None, false, freshLogin, false, false)];
        case DetachJob(h, loggedOut) =>
          if slots[h.slot].session == Some(h) {
            slots := slots[h.slot := slots[h.slot].(session := None, vault := None, archive := false)];
            if loggedOut {
              LogOut(h, luck);
            }
          }
        case ForgetJob =>
          CloseAll();
          registry := registry.(resetPending := true);
          var _ := ResetRegistry(luck);
      }
    }

    method FinishJob(luck: Luck)
      requires running.Busy? && !Ticketed(running.job) && InRange(running.job, |slots|)
      modifies `slots, `registry, `running, `clock
      ensures Abstract() == Ticked(old(Abstract()).(cabinet := Managed(old(Back()), old(running).job, luck),
                  desk := old(Middle()).(running := Resting)))
      ensures old(running).job.AttachJob? ==>
                var h := old(running).job.handle;
                && registry == old(registry)
                && slots == old(slots)[h.slot := Slot(Some(h), None, false, old(running).job.freshLogin, false, false)]
      ensures old(running).job.DetachJob? ==>
                var h := old(running).job.handle;
                && |slots| == |old(slots)|
                && (old(slots)[h.slot].session == Some(h) ==>
                      && slots[h.slot].session.None? && slots[h.slot].vault.None?
                      && (!old(running).job.loggedOut ==> registry == old(registry)))
      ensures old(running).job.ForgetJob? ==>
                && (forall x :: 0 <= x < |slots| ==>
                      slots[x].session.None? && slots[x].vault.None? && !slots[x].archive)
                && (if luck.reset then registry.bindings == map[] && !registry.resetPending else registry.resetPending)
    {
      hide Managed;
      SettleSessions(running.job, luck);
      running := Resting;
      clock := clock + 1;
    }

    /** Attachments, detachments and the end of all sessions, in the order of the UI thread's calls. */
    method ManageSessions(luck: Luck)
      requires Valid() && AtStage(Abstract(), Entered) && !Ticketed(running.job)
      modifies this
      ensures Stepped(Manage(luck))
      ensures old(running).job.AttachJob? ==>
                var h, freshLogin := old(running).job.handle, old(running).job.freshLogin;
                && h.slot < |old(slots)| && registry == old(registry)
                && slots == old(slots)[h.slot := Slot(Some(h), None, false, freshLogin, false, false)]
      ensures old(running).job.DetachJob? ==>
                var h := old(running).job.handle;
                && h.slot < |slots| && slots[h.slot].session.None? && slots[h.slot].vault.None?
                && (!old(running).job.loggedOut ==> registry == old(registry))
      ensures old(running).job.ForgetJob? ==>
                && (forall x :: 0 <= x < |slots| ==>
                      slots[x].session.None? && slots[x].vault.None? && !slots[x].archive)
                && (if luck.reset then registry.bindings == map[] && !registry.resetPending else registry.resetPending)
    {
      hide Inv, UiInv, Run, Managed;
      Known();
      ghost var s := Abstract();
      RunningIsInRange(s);
      WorkerTurnsAreSteps(s, Manage(luck));
      if running.job.DetachJob? {
        DetachFinds(s);
      }
      hide Step;
      FinishJob(luck);
      Record(Manage(luck), s);
    }

    /** The loop ends once it is stopped and its queue is empty. */
    method Leave()
      requires Valid() && running.Resting? && queue == [] && stopping
      modifies this
      ensures Stepped(Exit)
      ensures running.Exited? && |slots| == |old(slots)| && forall x :: 0 <= x < |slots| ==> slots[x] == EMPTY_SLOT
    {
      Begin(Exit);
      clock := clock + 1;
      hide Run;
      running := Exited;
      slots := seq(|slots|, _ => EMPTY_SLOT);
    }
  }
}
