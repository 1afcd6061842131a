/**
 * The archive worker: the UI thread attaches sessions, admits jobs and runs callbacks; one worker thread runs the
 * jobs in order.  A step is whatever happens between two accesses to shared state; the worker alone touches storage.
 */
module ArchiveWorker {
  import opened Common
  import opened SnapshotCodec
  import opened CatalogCodec

  const MEDIA_CAPTURES := 4
  const TEXT_CAPTURES := 2000
  const REQUESTS := 8
  const TEXT_BYTES := 64 * 1024 * 1024

  // ----- what the UI thread owns

  /** The constant part of a session; `id` tells sessions of the same account apart. */
  datatype Handle = Handle(id: nat, slot: nat, owner: nat, authorization: Bytes)

  datatype Session = Session(handle: Handle, live: bool, enabled: bool, revision: nat)

  datatype Gate = Gate(alive: bool, locked: bool, epoch: nat)

  /** What a job remembers of the moment it was admitted; `done` says whether somebody waits for a result. */
  datatype Ticket = Ticket(handle: Handle, revision: nat, epoch: nat, admitted: nat, done: bool)

  /** `sessions` are all sessions ever made, `seats` the current one of each slot. */
  datatype Ui = Ui(gate: Gate, sessions: seq<Session>, seats: seq<Option<Handle>>, mailbox: seq<Ticket>)

  // ----- the queue

  datatype Job =
    | AttachJob(handle: Handle, freshLogin: bool)
    | DetachJob(handle: Handle, loggedOut: bool)
    | ForgetJob
    | CaptureJob(ticket: Ticket, media: bool, weight: nat)
    | RequestJob(ticket: Ticket)
    | ClearJob(ticket: Ticket)

  predicate Ticketed(job: Job) { job.CaptureJob? || job.RequestJob? || job.ClearJob? }

  datatype Stage = Entered | Using | Posting | Wiping | Releasing
  datatype Running = Resting | Busy(job: Job, stage: Stage) | Exited

  datatype Counters = Counters(media: int, text: int, requests: int, bytes: int)

  datatype Desk = Desk(queue: seq<Job>, running: Running, counters: Counters, stopping: bool)

  // ----- what the worker owns

  datatype Vault = Vault(slot: nat, owner: nat, authorization: Bytes, generation: nat)
  datatype Slot = Slot(session: Option<Handle>, vault: Option<Vault>, archive: bool, freshLogin: bool,
      clearPending: bool, recoveryPending: bool)

  /**
   * The persistent registry: one generation per slot; `used` are all generations ever made, `retiring` the slots whose
   * generation has its retirement on record and is never offered again.
   */
  datatype Binding = Binding(owner: nat, authorization: Bytes, generation: nat)
  datatype Registry = Registry(bindings: map<nat, Binding>, used: set<nat>, resetPending: bool, retiring: set<nat>)

  /** One use of the storage by an admitted job, and the vault it reached, if any. */
  datatype Entry = Entry(ticket: Ticket, clear: bool, vault: Option<Vault>)

  datatype Cabinet = Cabinet(slots: seq<Slot>, registry: Registry, log: seq<Entry>)

  datatype State = State(ui: Ui, desk: Desk, cabinet: Cabinet, clock: nat)

  const EMPTY_SLOT := Slot(None, None, false, false, false, false)

  /** `bindings` and `retiring` are what earlier processes left in the registry. */
  function Initial(slots: nat, bindings: map<nat, Binding>, used: set<nat>, retiring: set<nat>): State {
    State(Ui(Gate(true, false, 0), [], seq(slots, _ => None), []),
          Desk([], Resting, Counters(0, 0, 0, 0), false),
          Cabinet(seq(slots, _ => EMPTY_SLOT), Registry(bindings, used, false, retiring), []), 0)
  }

  // ----- stamps

  predicate IsCurrent(u: Ui, t: Ticket) {
    t.handle.id < |u.sessions| && u.sessions[t.handle.id].live && u.gate.alive
        && u.sessions[t.handle.id].revision == t.revision
  }

  predicate IsVisible(u: Ui, t: Ticket) { IsCurrent(u, t) && !u.gate.locked && u.gate.epoch == t.epoch }

  /** A session asked about with its own present stamps. */
  predicate Alive(u: Ui, id: nat) { id < |u.sessions| && u.sessions[id].live && u.gate.alive }

  predicate Usable(u: Ui, id: nat) { Alive(u, id) && !u.gate.locked }

  predicate CaptureEnabled(u: Ui, id: nat) { Alive(u, id) && u.sessions[id].enabled }

  function Stamp(s: State, id: nat, done: bool): Ticket
    requires id < |s.ui.sessions|
  {
    Ticket(s.ui.sessions[id].handle, s.ui.sessions[id].revision, s.ui.gate.epoch, s.clock, done)
  }

  // ----- the UI thread's calls

  predicate Seated(u: Ui, id: nat) {
    id < |u.sessions| && u.sessions[id].handle.slot < |u.seats|
        && u.seats[u.sessions[id].handle.slot] == Some(u.sessions[id].handle)
  }

  function Unseated(u: Ui, id: nat): Ui
    requires Seated(u, id)
  {
    var session := u.sessions[id];
    u.(sessions := u.sessions[id := session.(live := false, revision := session.revision + 1)],
        seats := u.seats[session.handle.slot := None])
  }

  function Queued(d: Desk, job: Job): Desk { d.(queue := d.queue + [job]) }

  function AfterDetach(s: State, id: nat, loggedOut: bool): (t: State)
    ensures |t.ui.seats| == |s.ui.seats| && |t.ui.sessions| == |s.ui.sessions|
  {
    if !Seated(s.ui, id) then s
    else s.(ui := Unseated(s.ui, id), desk := Queued(s.desk, DetachJob(s.ui.sessions[id].handle, loggedOut)))
  }

  /** A new session replaces the one in its slot, which is not a logout. */
  function AfterAttach(s: State, slot: int, owner: nat, freshLogin: bool, authorization: Bytes): State {
    if slot < 0 || slot >= |s.ui.seats| || owner == 0 || !IsId(authorization) then s
    else
      var t := if s.ui.seats[slot].Some? then AfterDetach(s, s.ui.seats[slot].value.id, false) else s;
      var handle := Handle(|t.ui.sessions|, slot, owner, authorization);
      t.(ui := t.ui.(sessions := t.ui.sessions + [Session(handle, true, false, 0)],
          seats := t.ui.seats[slot := Some(handle)]),
           desk := Queued(t.desk, AttachJob(handle, freshLogin)))
  }

  function AfterSetLocked(u: Ui, locked: bool): Ui {
    u.(gate := u.gate.(locked := locked, epoch := if u.gate.locked != locked then u.gate.epoch + 1 else u.gate.epoch))
  }

  function AfterSetEnabled(u: Ui, id: nat, value: bool): Ui {
    if Alive(u, id) then u.(sessions := u.sessions[id := u.sessions[id].(enabled := value)]) else u
  }

  /** The sizes of a capture's three strings, the size of its original, and whether it brings a reader. */
  datatype Sizes = Sizes(text: nat, content: nat, mime: nat, bytes: nat, reader: bool)

  function Weight(z: Sizes): nat { z.text + z.content + z.mime + 192 }

  predicate Admissible(c: Counters, z: Sizes) {
    && (if z.reader then c.media < MEDIA_CAPTURES else c.text < TEXT_CAPTURES)
    && Weight(z) <= TEXT_BYTES && c.bytes <= TEXT_BYTES - Weight(z) && z.bytes <= MAX_MEDIA_BYTES
    && (z.bytes != 0) == z.reader && z.text <= 60000 && z.content <= 60000 && z.mime <= 128
  }

  function AfterCapture(s: State, id: nat, z: Sizes, done: bool): State {
    if !CaptureEnabled(s.ui, id) || !Admissible(s.desk.counters, z) then s
    else
      var c := s.desk.counters;
      var counted := c.(media := c.media + if z.reader then 1 else 0, text := c.text + if z.reader then 0
          else 1, bytes := c.bytes + Weight(z));
      s.(desk := Queued(s.desk, CaptureJob(Stamp(s, id, done), z.reader, Weight(z))).(counters := counted))
  }

  function AfterRequest(s: State, id: nat, done: bool): State {
    if !Usable(s.ui, id) || s.desk.counters.requests >= REQUESTS then s
    else s.(desk := Queued(s.desk,
        RequestJob(Stamp(s, id, done))).(counters := s.desk.counters.(requests := s.desk.counters.requests + 1)))
  }

  /** Clearing advances the revision first, so that the job carries the new one. */
  function AfterClear(s: State, id: nat, done: bool): State {
    if !Usable(s.ui, id) then s
    else
      var t := s.(ui := s.ui.(sessions :=
          s.ui.sessions[id := s.ui.sessions[id].(revision := s.ui.sessions[id].revision + 1)]));
      t.(desk := Queued(t.desk, ClearJob(Stamp(t, id, done))))
  }

  /** Every seated session dies. */
  function Emptied(u: Ui): Ui {
    u.(sessions := seq(|u.sessions|, i requires 0 <= i < |u.sessions| =>
        if Seated(u, i) then u.sessions[i].(live := false) else u.sessions[i]),
       seats := seq(|u.seats|, _ => None))
  }

  function AfterForgetAll(s: State): State {
    var u := Emptied(s.ui);
    s.(ui := u.(gate := u.gate.(epoch := u.gate.epoch + 1)), desk := Queued(s.desk, ForgetJob))
  }

  function AfterDestroy(s: State): State {
    s.(ui := s.ui.(gate := s.ui.gate.(alive := false), sessions := Emptied(s.ui).sessions),
        desk := s.desk.(stopping := true))
  }

  // ----- the registry and the vaults; `Luck` decides what fails and which fresh generation is drawn

  datatype Luck = Luck(reset: bool, erased: set<nat>, logout: bool, removed: bool, open: bool, bound: bool,
      noted: set<nat>, generation: nat, archive: bool, recover: bool, operation: bool, cleanup: bool)

  /**
   * A pending reset must succeed before anything else; a failed one may have erased some bindings, and put the
   * retirement of others on record.
   */
  function Reset(r: Registry, luck: Luck): (Registry, bool) {
    if !r.resetPending then (r, true)
    else if luck.reset then (r.(bindings := map[], resetPending := false), true)
    else (r.(bindings := r.bindings - luck.erased, retiring := r.retiring + luck.noted * r.bindings.Keys), false)
  }

  function LoggedOut(r: Registry, h: Handle, luck: Luck): (Registry, bool) {
    if h.slot !in r.bindings then (r, luck.logout)
    else if r.bindings[h.slot].owner != h.owner || r.bindings[h.slot].authorization != h.authorization then (r, false)
    else if luck.logout || luck.removed then (r.(bindings := r.bindings - {h.slot}), luck.logout)
    else (r.(retiring := r.retiring + luck.noted * {h.slot}), false)
  }

  /**
   * An existing generation is reused only for the same owner and authorization, unless the login is fresh or it is
   * already retired.
   */
  function Opened(r: Registry, h: Handle, freshLogin: bool, luck: Luck): (Registry, Option<Vault>) {
    var kept := h.slot in r.bindings && r.bindings[h.slot].owner == h.owner
        && r.bindings[h.slot].authorization == h.authorization && !freshLogin && h.slot !in r.retiring;
    var bound := r.(bindings := r.bindings[h.slot := Binding(h.owner, h.authorization, luck.generation)],
        used := r.used + {luck.generation}, retiring := r.retiring - {h.slot});
    if luck.open then
      if kept then (r, Some(Vault(h.slot, h.owner, h.authorization, r.bindings[h.slot].generation)))
      else (bound, Some(Vault(h.slot, h.owner, h.authorization, luck.generation)))
    else if kept then (r, None)
    else if luck.bound then (bound, None)
    else if luck.removed then (r.(bindings := r.bindings - {h.slot}), None)
    else (r.(retiring := r.retiring + luck.noted * r.bindings.Keys * {h.slot}), None)
  }

  function ClearStage(slot: Slot, r: Registry, h: Handle, luck: Luck): (Slot, Registry, bool) {
    if !slot.clearPending then (slot, r, true)
    else
      var closed := slot.(archive := false, vault := None);
      var (reset, ready) := Reset(r, luck);
      if !ready then (closed, reset, false)
      else
        var (left, gone) := LoggedOut(reset, h, luck);
        if !gone then (closed, left, false)
        else (closed.(freshLogin := true, clearPending := false, recoveryPending := false), left, true)
  }

  function OpenStage(slot: Slot, r: Registry, h: Handle, luck: Luck): (Slot, Registry, bool) {
    if slot.vault.Some? then (slot, r, true)
    else
      var (reset, ready) := Reset(r, luck);
      if !ready then (slot, reset, false)
      else
        var (next, vault) := Opened(reset, h, slot.freshLogin, luck);
        if vault.None? then (slot, next, false) else (slot.(vault := vault, freshLogin := false), next, true)
  }

  function ReadyStage(slot: Slot, luck: Luck): (Slot, bool) {
    if !slot.archive && !luck.archive then (slot, false)
    else if !slot.recoveryPending then (slot.(archive := true), true)
    else (slot.(archive := true, recoveryPending := !luck.recover), luck.recover)
  }

  /** The way to a session's archive: retire what was cleared, open the vault, repair it. */
  function Reached(slot: Slot, r: Registry, h: Handle, luck: Luck): (Slot, Registry, bool) {
    if slot.session != Some(h) then (slot, r, false)
    else
      var (cleared, r1, first) := ClearStage(slot, r, h, luck);
      if !first then (cleared, r1, false)
      else
        var (vaulted, r2, second) := OpenStage(cleared, r1, h, luck);
        if !second then (vaulted, r2, false)
        else
          var (ready, third) := ReadyStage(vaulted, luck);
          (ready, r2, third)
  }

  /** An admitted job uses the storage: a capture that fails asks for recovery, a clear first marks the slot. */
  function Used(c: Cabinet, job: Job, luck: Luck): Cabinet
    requires Ticketed(job) && job.ticket.handle.slot < |c.slots|
  {
    var h := job.ticket.handle;
    var before := if job.ClearJob? then c.slots[h.slot].(clearPending := true) else c.slots[h.slot];
    var (slot, registry, ok) := Reached(before, c.registry, h, luck);
    var after := if job.CaptureJob? then slot.(recoveryPending := !ok || !luck.operation || luck.cleanup) else slot;
    Cabinet(c.slots[h.slot := after], registry,
        c.log + [Entry(job.ticket, job.ClearJob?, if ok then slot.vault else None)])
  }

  /** The jobs without a ticket. */
  function Managed(c: Cabinet, job: Job, luck: Luck): Cabinet
    requires !Ticketed(job) && (!job.ForgetJob? ==> job.handle.slot < |c.slots|)
  {
    match job
    case AttachJob(h, freshLogin) =>
        c.(slots := c.slots[h.slot := Slot(Some(h), None, false, freshLogin, false, false)])
    case DetachJob(h, loggedOut) =>
      var slot := c.slots[h.slot];
      if slot.session != Some(h) then c
      else
        var closed := c.(slots := c.slots[h.slot := slot.(session := None, vault := None, archive := false)]);
        if !loggedOut then closed
        else
          var (reset, ready) := Reset(closed.registry, luck);
          closed.(registry := if ready then LoggedOut(reset, h, luck).0 else reset)
    case ForgetJob =>
      var slots := seq(|c.slots|, i requires 0 <= i < |c.slots| =>
          c.slots[i].(session := None, vault := None, archive := false));
      c.(slots := slots, registry := Reset(c.registry.(resetPending := true), luck).0)
  }

  // ----- steps

  datatype Action =
    // the UI thread
    | Attach(slot: int, owner: nat, freshLogin: bool, authorization: Bytes)
    | Detach(id: nat, loggedOut: bool)
    | SetLocked(locked: bool)
    | SetEnabled(id: nat, value: bool)
    | Capture(id: nat, sizes: Sizes, done: bool)
    | Request(id: nat, done: bool)
    | Clear(id: nat, done: bool)
    | ForgetAll
    | Destroy
    | RunCallback
    // the worker
    | Pop | Check | Use(luck: Luck) | Post | ReleaseBytes | Release | Manage(luck: Luck) | Exit

  predicate OfWorker(a: Action) {
    a.Pop? || a.Check? || a.Use? || a.Post? || a.ReleaseBytes? || a.Release? || a.Manage? || a.Exit?
  }

  predicate AtStage(s: State, stage: Stage) { s.desk.running.Busy? && s.desk.running.stage == stage }

  predicate InRange(job: Job, slots: nat) {
    if Ticketed(job) then job.ticket.handle.slot < slots else job.ForgetJob? || job.handle.slot < slots
  }

  predicate Enabled(s: State, a: Action) {
    match a
    case RunCallback => s.ui.mailbox != []
    case Pop => s.desk.running.Resting? && s.desk.queue != []
    case Check => AtStage(s, Entered) && Ticketed(s.desk.running.job)
    case Use(luck) =>
        AtStage(s, Using) && Ticketed(s.desk.running.job) && InRange(s.desk.running.job, |s.cabinet.slots|)
        && luck.generation !in s.cabinet.registry.used
    case Post => AtStage(s, Posting) && Ticketed(s.desk.running.job)
    case ReleaseBytes => AtStage(s, Wiping)
    case Release => AtStage(s, Releasing)
    case Manage(luck) =>
        AtStage(s, Entered) && !Ticketed(s.desk.running.job) && InRange(s.desk.running.job, |s.cabinet.slots|)
    case Exit => s.desk.running.Resting? && s.desk.queue == [] && s.desk.stopping
    case _ => !s.desk.stopping
  }

  function Staged(s: State, stage: Stage): State
    requires s.desk.running.Busy?
  {
    s.(desk := s.desk.(running := Busy(s.desk.running.job, stage)))
  }

  /** Captures and clears only need their session, requests also the unlocked screen they were made on. */
  predicate Passes(u: Ui, job: Job)
    requires Ticketed(job)
  {
    if job.RequestJob? then IsVisible(u, job.ticket) else IsCurrent(u, job.ticket)
  }

  function AfterPost(s: State): State
    requires s.desk.running.Busy? && Ticketed(s.desk.running.job)
  {
    var t := s.desk.running.job.ticket;
    Staged(s.(ui := if t.done && IsVisible(s.ui, t) then s.ui.(mailbox := s.ui.mailbox + [t]) else s.ui), Wiping)
  }

  function AfterReleaseBytes(s: State): State
    requires s.desk.running.Busy?
  {
    var c, job := s.desk.counters, s.desk.running.job;
    Staged(s.(desk := s.desk.(counters := c.(bytes := c.bytes - if job.CaptureJob? then job.weight else 0))), Releasing)
  }

  function AfterRelease(s: State): State
    requires s.desk.running.Busy?
  {
    var c, job := s.desk.counters, s.desk.running.job;
    s.(desk := s.desk.(running := Resting,
        counters := c.(media := c.media - (if job.CaptureJob? && job.media then 1 else 0),
                                                          text := c.text - (if job.CaptureJob? && !job.media then 1
                                                              else 0),
                                                          requests := c.requests - (if job.RequestJob? then 1 else 0))))
  }

  function Moved(s: State, a: Action): State
    requires Enabled(s, a)
  {
    match a
    case Attach(slot, owner, freshLogin, authorization) => AfterAttach(s, slot, owner, freshLogin, authorization)
    case Detach(id, loggedOut) => AfterDetach(s, id, loggedOut)
    case SetLocked(locked) => s.(ui := AfterSetLocked(s.ui, locked))
    case SetEnabled(id, value) => s.(ui := AfterSetEnabled(s.ui, id, value))
    case Capture(id, sizes, done) => AfterCapture(s, id, sizes, done)
    case Request(id, done) => AfterRequest(s, id, done)
    case Clear(id, done) => AfterClear(s, id, done)
    case ForgetAll => AfterForgetAll(s)
    case Destroy => AfterDestroy(s)
    case RunCallback => s.(ui := s.ui.(mailbox := s.ui.mailbox[1..]))
    case Pop => s.(desk := s.desk.(queue := s.desk.queue[1..], running := Busy(s.desk.queue[0], Entered)))
    case Check => Staged(s, if Passes(s.ui, s.desk.running.job) then Using else Wiping)
    case Use(luck) => Staged(s.(cabinet := Used(s.cabinet, s.desk.running.job, luck)), Posting)
    case Post => AfterPost(s)
    case ReleaseBytes => AfterReleaseBytes(s)
    case Release => AfterRelease(s)
    case Manage(luck) =>
        s.(cabinet := Managed(s.cabinet, s.desk.running.job, luck), desk := s.desk.(running := Resting))
    case Exit =>
        s.(desk := s.desk.(running := Exited), cabinet := s.cabinet.(slots := seq(|s.cabinet.slots|, _ => EMPTY_SLOT)))
  }

  function Step(s: State, a: Action): State
    requires Enabled(s, a)
  {
    Moved(s, a).(clock := s.clock + 1)
  }

  predicate Attachable(owner: nat, authorization: Bytes) { owner > 0 && IsId(authorization) }

  /** Any registry earlier processes may have left; it reads no binding without an owner or with a malformed account. */
  ghost predicate Starts(s: State, slots: nat) {
    var r := s.cabinet.registry;
    && s == Initial(slots, r.bindings, r.used, r.retiring)
    && forall x :: x in r.bindings ==>
         r.bindings[x].generation in r.used && Attachable(r.bindings[x].owner, r.bindings[x].authorization)
  }

  ghost predicate Run(states: seq<State>, actions: seq<Action>, slots: nat) {
    && |states| == |actions| + 1 && Starts(states[0], slots)
    && forall i :: 0 <= i < |actions| ==> Enabled(states[i], actions[i]) && states[i + 1] == Step(states[i], actions[i])
  }

  // ----- admission: the counters are what is queued and running

  function Plus(a: Counters, b: Counters): Counters {
    Counters(a.media + b.media, a.text + b.text, a.requests + b.requests, a.bytes + b.bytes)
  }

  function One(job: Job): Counters {
    if job.CaptureJob? then Counters(if job.media then 1 else 0, if job.media then 0 else 1, 0, job.weight)
    else Counters(0, 0, if job.RequestJob? then 1 else 0, 0)
  }

  function Load(jobs: seq<Job>): Counters {
    if jobs == [] then Counters(0, 0, 0, 0) else Plus(One(jobs[0]), Load(jobs[1..]))
  }

  /** A running job has given its bytes back once it only has to release its place. */
  function RunningLoad(r: Running): Counters {
    if !r.Busy? then Counters(0, 0, 0, 0)
    else if r.stage.Releasing? then One(r.job).(bytes := 0)
    else One(r.job)
  }

  lemma {:induction false} LoadOfMore(jobs: seq<Job>, job: Job)
    ensures Load(jobs + [job]) == Plus(Load(jobs), One(job))
  {
    hide One;
    if jobs == [] {
      assert [] + [job] == [job] && [job][1..] == [];
      assert Load([job]) == Plus(One(job), Load([]));
    } else {
      LoadOfMore(jobs[1..], job);
      LoadOf(jobs + [job]);
      assert (jobs + [job])[1..] == jobs[1..] + [job] && (jobs + [job])[0] == jobs[0];
    }
  }

  lemma LoadOf(jobs: seq<Job>)
    requires jobs != []
    ensures Load(jobs) == Plus(One(jobs[0]), Load(jobs[1..]))
  {
  }

  ghost predicate DeskInv(d: Desk) {
    && d.counters == Plus(Load(d.queue), RunningLoad(d.running))
    && d.counters.media <= MEDIA_CAPTURES && d.counters.text <= TEXT_CAPTURES && d.counters.requests <= REQUESTS
    && d.counters.bytes <= TEXT_BYTES
    && (d.running.Exited? ==> d.queue == [] && d.stopping)
    && (d.running.Busy? && !Ticketed(d.running.job) ==> d.running.stage.Entered?)
  }

  lemma QueueingKeepsDesk(d: Desk, job: Job, counters: Counters)
    requires DeskInv(d) && !d.running.Exited? && counters == Plus(d.counters, One(job))
    requires counters.media <= MEDIA_CAPTURES && counters.text <= TEXT_CAPTURES && counters.requests <= REQUESTS
    requires counters.bytes <= TEXT_BYTES
    ensures DeskInv(Queued(d, job).(counters := counters))
  {
    LoadOfMore(d.queue, job);
    hide Load, One, RunningLoad;
  }

  /**
   * What a call of the UI thread does to the desk: nothing, or one or two more jobs, counted when they are captures or
   * requests.
   */
  lemma DeskStepOfUi(s: State, a: Action)
    requires DeskInv(s.desk) && Enabled(s, a) && !OfWorker(a)
    ensures DeskInv(Step(s, a).desk)
  {
    hide IsId, Load, RunningLoad, Emptied, Unseated;
    var next := Step(s, a).desk;
    if |next.queue| == |s.desk.queue| + 1 {
      QueueingKeepsDesk(s.desk, next.queue[|s.desk.queue|], next.counters);
    } else if |next.queue| == |s.desk.queue| + 2 {
      var first := Queued(s.desk, next.queue[|s.desk.queue|]);
      QueueingKeepsDesk(s.desk, next.queue[|s.desk.queue|], next.counters);
      QueueingKeepsDesk(first, next.queue[|s.desk.queue| + 1], next.counters);
    }
  }

  lemma DeskStepOfPop(s: State)
    requires DeskInv(s.desk) && Enabled(s, Pop)
    ensures DeskInv(Step(s, Pop).desk)
  {
  }

  lemma DeskStepOfWorker(s: State, a: Action)
    requires DeskInv(s.desk) && Enabled(s, a) && OfWorker(a) && !a.Pop?
    ensures DeskInv(Step(s, a).desk)
  {
    hide Used, Managed, IsVisible, IsCurrent, Load;
  }

  // ----- sessions: the storage follows the UI thread, and no admitted job meets a stale session

  /** The session of slot `x` after a job. */
  function Seat(session: Option<Handle>, job: Job, x: nat): Option<Handle> {
    match job
    case AttachJob(h, _) => if h.slot == x then Some(h) else session
    case DetachJob(h, _) => if session == Some(h) then None else session
    case ForgetJob => None
    case _ => session
  }

  function Seats(session: Option<Handle>, jobs: seq<Job>, x: nat): Option<Handle> {
    if jobs == [] then session else Seat(Seats(session, jobs[..|jobs| - 1], x), jobs[|jobs| - 1], x)
  }

  function Pending(d: Desk): seq<Job> { if d.running.Busy? then [d.running.job] + d.queue else d.queue }

  /** The session a job is meant for; it was the seated one when the job was queued. */
  function Meant(job: Job): Option<Handle> {
    if Ticketed(job) then Some(job.ticket.handle) else if job.DetachJob? then Some(job.handle) else None
  }

  predicate MeantAt(job: Job, x: nat) { Meant(job).Some? && Meant(job).value.slot == x }

  /** Every job meant for a session of slot `x` will find that session there when its turn comes. */
  ghost predicate Tidy(session: Option<Handle>, jobs: seq<Job>, x: nat) {
    forall k :: 0 <= k < |jobs| && MeantAt(jobs[k], x) ==> Seats(session, jobs[..k], x) == Meant(jobs[k])
  }

  lemma TidyMore(session: Option<Handle>, jobs: seq<Job>, job: Job, x: nat)
    requires Tidy(session, jobs, x)
    requires MeantAt(job, x) ==> Seats(session, jobs, x) == Meant(job)
    ensures Tidy(session, jobs + [job], x) && Seats(session, jobs + [job], x) == Seat(Seats(session, jobs, x), job, x)
  {
    var more := jobs + [job];
    assert more[..|jobs|] == jobs;
    forall k | 0 <= k < |more| && MeantAt(more[k], x) ensures Seats(session, more[..k], x) == Meant(more[k])
    {
      if k < |jobs| {
        assert more[..k] == jobs[..k];
      }
    }
  }

  lemma {:induction false} SeatsOfFirst(session: Option<Handle>, jobs: seq<Job>, x: nat)
    requires jobs != []
    ensures Seats(session, jobs, x) == Seats(Seat(session, jobs[0], x), jobs[1..], x)
  {
    if |jobs| > 1 {
      SeatsOfFirst(session, jobs[..|jobs| - 1], x);
      assert jobs[..|jobs| - 1][1..] == jobs[1..][..|jobs| - 2];
    } else {
      assert jobs[..0] == [] && jobs[1..] == [];
    }
  }

  lemma TidyRest(session: Option<Handle>, jobs: seq<Job>, x: nat)
    requires jobs != [] && Tidy(session, jobs, x)
    ensures Tidy(Seat(session, jobs[0], x), jobs[1..], x)
    ensures Seats(session, jobs, x) == Seats(Seat(session, jobs[0], x), jobs[1..], x)
    ensures MeantAt(jobs[0], x) ==> session == Meant(jobs[0])
  {
    SeatsOfFirst(session, jobs, x);
    var rest := jobs[1..];
    assert jobs[..0] == [];
    forall k | 0 <= k < |rest| && MeantAt(rest[k], x)
      ensures Seats(Seat(session, jobs[0], x), rest[..k], x) == Meant(rest[k])
    {
      SeatsOfFirst(session, jobs[..k + 1], x);
      assert jobs[..k + 1][1..] == rest[..k] && jobs[k + 1] == rest[k];
    }
  }

  /** Sessions are numbered as they were made, and the seated ones are exactly the live ones. */
  ghost predicate UiInv(u: Ui) {
    && (forall i :: 0 <= i < |u.sessions| ==>
         u.sessions[i].handle.id == i && u.sessions[i].handle.slot < |u.seats| && u.sessions[i].handle.owner > 0)
    && (forall x :: 0 <= x < |u.seats| && u.seats[x].Some? ==>
          var h := u.seats[x].value;
              h.id < |u.sessions| && u.sessions[h.id].handle == h && h.slot == x
              && (u.gate.alive ==> u.sessions[h.id].live))
    && (forall i :: 0 <= i < |u.sessions| && u.sessions[i].live ==>
         u.gate.alive && u.seats[u.sessions[i].handle.slot] == Some(u.sessions[i].handle))
  }

  lemma UnseatedIsSound(u: Ui, id: nat)
    requires UiInv(u) && Seated(u, id)
    ensures UiInv(Unseated(u, id))
  {
  }

  lemma EmptiedIsSound(u: Ui)
    requires UiInv(u)
    ensures UiInv(Emptied(u)) && UiInv(u.(gate := u.gate.(alive := false), sessions := Emptied(u).sessions))
  {
  }

  lemma SeatedIsSound(u: Ui, handle: Handle)
    requires UiInv(u) && u.gate.alive && handle.id == |u.sessions| && handle.owner > 0 && handle.slot < |u.seats|
    requires u.seats[handle.slot].None?
    ensures UiInv(u.(sessions := u.sessions + [Session(handle, true, false, 0)],
                seats := u.seats[handle.slot := Some(handle)]))
  {
  }

  lemma AttachIsSound(s: State, slot: int, owner: nat, freshLogin: bool, authorization: Bytes)
    requires UiInv(s.ui) && s.ui.gate.alive
    ensures var t := AfterAttach(s, slot, owner, freshLogin, authorization);
              UiInv(t.ui) && t.ui.gate == s.ui.gate && t.desk.stopping == s.desk.stopping
  {
    hide IsId, UiInv, Unseated;
    if 0 <= slot < |s.ui.seats| && owner > 0 {
      var t := s;
      if s.ui.seats[slot].Some? {
        var id := s.ui.seats[slot].value.id;
        SeatedAt(s.ui, slot);
        UnseatedIsSound(s.ui, id);
        t := AfterDetach(s, id, false);
      }
      SeatedIsSound(t.ui, Handle(|t.ui.sessions|, slot, owner, authorization));
    }
  }

  lemma SeatedAt(u: Ui, slot: nat)
    requires UiInv(u) && slot < |u.seats| && u.seats[slot].Some?
    ensures Seated(u, u.seats[slot].value.id) && Unseated(u, u.seats[slot].value.id).seats == u.seats[slot := None]
    ensures Unseated(u, u.seats[slot].value.id).gate == u.gate
  {
  }

  lemma UiStep(s: State, a: Action)
    requires UiInv(s.ui) && Enabled(s, a) && (s.desk.stopping <==> !s.ui.gate.alive)
    ensures UiInv(Step(s, a).ui) && (Step(s, a).desk.stopping <==> !Step(s, a).ui.gate.alive)
  {
    hide Used, Managed, Passes, IsVisible, AfterAttach;
    if a.Attach? {
      AttachIsSound(s, a.slot, a.owner, a.freshLogin, a.authorization);
      hide UiInv;
    } else if a.Detach? {
      if Seated(s.ui, a.id) {
        UnseatedIsSound(s.ui, a.id);
      }
      hide UiInv;
    } else if a.ForgetAll? || a.Destroy? {
      EmptiedIsSound(s.ui);
    } else {
      hide Emptied, Unseated;
    }
  }

  /** Once the queue has drained, the storage has exactly the sessions the UI thread has seated. */
  ghost predicate SeatInv(s: State) {
    && |s.ui.seats| == |s.cabinet.slots|
    && (forall job :: job in Pending(s.desk) ==> InRange(job, |s.cabinet.slots|))
    && (!s.desk.running.Exited? ==> forall x :: 0 <= x < |s.cabinet.slots| ==>
          && Tidy(s.cabinet.slots[x].session, Pending(s.desk), x)
          && Seats(s.cabinet.slots[x].session, Pending(s.desk), x) == s.ui.seats[x])
  }

  lemma QueueingKeepsSeats(s: State, job: Job, ui: Ui, counters: Counters)
    requires SeatInv(s) && InRange(job, |s.cabinet.slots|) && |ui.seats| == |s.ui.seats| && !s.desk.running.Exited?
    requires forall x :: 0 <= x < |s.ui.seats| ==> ui.seats[x] == Seat(s.ui.seats[x], job, x)
    requires Meant(job).Some? && Meant(job).value.slot < |s.ui.seats| ==>
               s.ui.seats[Meant(job).value.slot] == Meant(job)
    ensures SeatInv(s.(ui := ui, desk := Queued(s.desk, job).(counters := counters)))
  {
    var next := Queued(s.desk, job).(counters := counters);
    assert Pending(next) == Pending(s.desk) + [job];
    forall x | 0 <= x < |s.cabinet.slots|
      ensures Tidy(s.cabinet.slots[x].session, Pending(next), x)
      ensures Seats(s.cabinet.slots[x].session, Pending(next), x) == ui.seats[x]
    {
      TidyMore(s.cabinet.slots[x].session, Pending(s.desk), job, x);
    }
  }

  lemma DetachKeepsSeats(s: State, id: nat, loggedOut: bool)
    requires UiInv(s.ui) && SeatInv(s) && !s.desk.running.Exited?
    ensures SeatInv(AfterDetach(s, id, loggedOut))
  {
    hide SeatInv;
    if Seated(s.ui, id) {
      var job := DetachJob(s.ui.sessions[id].handle, loggedOut);
      assert InRange(job, |s.cabinet.slots|) by { assert |s.ui.seats| == |s.cabinet.slots| by { SeatCount(s); } }
      QueueingKeepsSeats(s, job, Unseated(s.ui, id), s.desk.counters);
    }
  }

  lemma SeatCount(s: State)
    requires SeatInv(s)
    ensures |s.ui.seats| == |s.cabinet.slots|
  {
  }

  lemma AttachKeepsSeats(s: State, slot: int, owner: nat, freshLogin: bool, authorization: Bytes)
    requires UiInv(s.ui) && SeatInv(s) && !s.desk.running.Exited?
    ensures SeatInv(AfterAttach(s, slot, owner, freshLogin, authorization))
  {
    hide SeatInv, IsId;
    if 0 <= slot < |s.ui.seats| {
      var t := if s.ui.seats[slot].Some? then AfterDetach(s, s.ui.seats[slot].value.id, false) else s;
      if s.ui.seats[slot].Some? {
        DetachKeepsSeats(s, s.ui.seats[slot].value.id, false);
      }
      var handle := Handle(|t.ui.sessions|, slot, owner, authorization);
      SeatCount(t);
      var ui := t.ui.(sessions := t.ui.sessions + [Session(handle, true, false, 0)],
          seats := t.ui.seats[slot := Some(handle)]);
      QueueingKeepsSeats(t, AttachJob(handle, freshLogin), ui, t.desk.counters);
    }
  }

  lemma AdmissionKeepsSeats(s: State, a: Action)
    requires UiInv(s.ui) && SeatInv(s) && !s.desk.running.Exited? && Enabled(s, a)
    requires a.Capture? || a.Request? || a.Clear? || a.ForgetAll?
    ensures SeatInv(Moved(s, a))
  {
    hide SeatInv, Admissible;
    SeatCount(s);
    var next := Moved(s, a);
    if |next.desk.queue| > |s.desk.queue| {
      QueueingKeepsSeats(s, next.desk.queue[|s.desk.queue|], next.ui, next.desk.counters);
    } else {
      assert next == s;
    }
  }

  lemma SameSeats(s: State, t: State)
    requires SeatInv(s) && t.cabinet == s.cabinet && t.desk.queue == s.desk.queue && t.desk.running == s.desk.running
    requires t.ui.seats == s.ui.seats
    ensures SeatInv(t)
  {
  }

  lemma SeatStepOfUi(s: State, a: Action)
    requires UiInv(s.ui) && SeatInv(s) && (s.desk.running.Exited? ==> s.desk.stopping) && Enabled(s, a) && !OfWorker(a)
    ensures SeatInv(Step(s, a))
  {
    hide SeatInv, AfterAttach, AfterDetach, AfterCapture, AfterRequest, AfterClear, AfterForgetAll;
    if a.Attach? {
      AttachKeepsSeats(s, a.slot, a.owner, a.freshLogin, a.authorization);
    } else if a.Detach? {
      DetachKeepsSeats(s, a.id, a.loggedOut);
    } else if a.Capture? || a.Request? || a.Clear? || a.ForgetAll? {
      AdmissionKeepsSeats(s, a);
    } else {
      SameSeats(s, Moved(s, a));
    }
    SameSeats(Moved(s, a), Step(s, a));
  }

  /** The storage of a slot changes its session only through the jobs without a ticket. */
  lemma ReachedKeepsSession(slot: Slot, r: Registry, h: Handle, luck: Luck)
    ensures Reached(slot, r, h, luck).0.session == slot.session
  {
    hide Reset, LoggedOut, Opened;
  }

  lemma UsedKeepsSessions(c: Cabinet, job: Job, luck: Luck)
    requires Ticketed(job) && job.ticket.handle.slot < |c.slots|
    ensures var d := Used(c, job, luck);
              |d.slots| == |c.slots| && forall x :: 0 <= x < |c.slots| ==> d.slots[x].session == c.slots[x].session
  {
    hide Reached;
    var slot := c.slots[job.ticket.handle.slot];
    ReachedKeepsSession(slot, c.registry, job.ticket.handle, luck);
    ReachedKeepsSession(slot.(clearPending := true), c.registry, job.ticket.handle, luck);
  }

  lemma ManagedSeats(c: Cabinet, job: Job, luck: Luck)
    requires !Ticketed(job) && (!job.ForgetJob? ==> job.handle.slot < |c.slots|)
    requires forall x :: 0 <= x < |c.slots| && c.slots[x].session.Some? ==> c.slots[x].session.value.slot == x
    ensures var d := Managed(c, job, luck);
              && |d.slots| == |c.slots|
              && forall x :: 0 <= x < |c.slots| ==> d.slots[x].session == Seat(c.slots[x].session, job, x)
  {
    hide Reset, LoggedOut;
  }

  /** The session of each slot of the storage was made for that slot. */
  ghost predicate Housed(c: Cabinet) {
    forall x :: 0 <= x < |c.slots| && c.slots[x].session.Some? ==> c.slots[x].session.value.slot == x
  }

  lemma HousedStep(s: State, a: Action)
    requires Housed(s.cabinet) && Enabled(s, a)
    ensures Housed(Step(s, a).cabinet)
  {
    hide Used, Managed, AfterAttach, AfterDetach, AfterCapture, AfterRequest, AfterClear, AfterForgetAll;
    if a.Use? {
      UsedKeepsSessions(s.cabinet, s.desk.running.job, a.luck);
    } else if a.Manage? {
      ManagedSeats(s.cabinet, s.desk.running.job, a.luck);
    } else if !OfWorker(a) {
      UiLeavesCabinet(s, a);
    }
  }

  lemma UiLeavesCabinet(s: State, a: Action)
    requires Enabled(s, a) && !OfWorker(a)
    ensures Step(s, a).cabinet == s.cabinet && Step(s, a).desk.running == s.desk.running
  {
    hide IsId, Emptied, Unseated;
  }

  lemma ManageKeepsSeats(s: State, luck: Luck)
    requires SeatInv(s) && Housed(s.cabinet) && Enabled(s, Manage(luck))
    ensures SeatInv(Step(s, Manage(luck)))
  {
    hide Managed, Seats, Seat, Tidy;
    var job := s.desk.running.job;
    ManagedSeats(s.cabinet, job, luck);
    var t := Step(s, Manage(luck));
    assert Pending(s.desk)[1..] == Pending(t.desk) && Pending(s.desk)[0] == job;
    forall x | 0 <= x < |s.cabinet.slots|
      ensures Tidy(t.cabinet.slots[x].session, Pending(t.desk), x)
      ensures Seats(t.cabinet.slots[x].session, Pending(t.desk), x) == t.ui.seats[x]
    {
      TidyRest(s.cabinet.slots[x].session, Pending(s.desk), x);
    }
  }

  lemma ReleaseKeepsSeats(s: State)
    requires SeatInv(s) && Enabled(s, Release) && Ticketed(s.desk.running.job)
    ensures SeatInv(Step(s, Release))
  {
    hide Seats, Tidy;
    var t := Step(s, Release);
    assert Pending(s.desk)[1..] == Pending(t.desk) && Pending(s.desk)[0] == s.desk.running.job;
    forall x | 0 <= x < |s.cabinet.slots|
      ensures Tidy(t.cabinet.slots[x].session, Pending(t.desk), x)
      ensures Seats(t.cabinet.slots[x].session, Pending(t.desk), x) == t.ui.seats[x]
    {
      TidyRest(s.cabinet.slots[x].session, Pending(s.desk), x);
    }
  }

  lemma SeatStepOfWorker(s: State, a: Action)
    requires SeatInv(s) && Housed(s.cabinet) && DeskInv(s.desk) && Enabled(s, a) && OfWorker(a)
    ensures SeatInv(Step(s, a))
  {
    hide Seats, Tidy, Used, Managed, Load, RunningLoad, IsVisible, IsCurrent;
    if a.Manage? {
      hide SeatInv;
      ManageKeepsSeats(s, a.luck);
    } else if a.Release? {
      hide SeatInv;
      ReleaseKeepsSeats(s);
    } else {
      if a.Use? {
        UsedKeepsSessions(s.cabinet, s.desk.running.job, a.luck);
      }
      assert Pending(Step(s, a).desk) == Pending(s.desk);
    }
  }

  // ----- revocation

  /** Stamps only move one way: nothing revives, and the lock cannot change within an epoch. */
  ghost predicate Later(u: Ui, v: Ui) {
    && |u.sessions| <= |v.sessions| && (v.gate.alive ==> u.gate.alive)
    && u.gate.epoch <= v.gate.epoch && (u.gate.epoch == v.gate.epoch ==> u.gate.locked == v.gate.locked)
    && forall i :: 0 <= i < |u.sessions| ==> Aged(u.sessions[i], v.sessions[i])
  }

  predicate Aged(a: Session, b: Session) { b.handle == a.handle && (b.live ==> a.live) && a.revision <= b.revision }

  /** Some stamp that session `id` had in `u` is out of date in `v`. */
  predicate Gone(u: Ui, v: Ui, id: nat)
    requires id < |u.sessions| <= |v.sessions|
  {
    !v.gate.alive || !v.sessions[id].live || v.sessions[id].revision > u.sessions[id].revision
        || v.gate.epoch > u.gate.epoch
  }

  /** The calls that must silence whatever was admitted for session `id` before. */
  predicate Revokes(s: State, a: Action, id: nat) {
    match a
    case Attach(slot, owner, _, authorization) =>
      0 <= slot < |s.ui.seats| && owner > 0 && IsId(authorization) && s.ui.seats[slot].Some?
          && s.ui.seats[slot].value.id == id
    case Detach(other, _) => other == id && Seated(s.ui, id)
    case Clear(other, _) => other == id && Usable(s.ui, id)
    case SetLocked(locked) => locked != s.ui.gate.locked
    case ForgetAll => true
    case Destroy => true
    case _ => false
  }

  lemma LaterTrans(u: Ui, v: Ui, w: Ui)
    requires Later(u, v) && Later(v, w)
    ensures Later(u, w)
  {
    forall i | 0 <= i < |u.sessions| ensures Aged(u.sessions[i], w.sessions[i]) {
      assert Aged(u.sessions[i], v.sessions[i]) && Aged(v.sessions[i], w.sessions[i]);
    }
  }

  lemma UnseatedIsLater(u: Ui, id: nat)
    requires Seated(u, id)
    ensures Later(u, Unseated(u, id)) && Gone(u, Unseated(u, id), id)
  {
  }

  lemma StepIsLater(s: State, a: Action)
    requires UiInv(s.ui) && Enabled(s, a)
    ensures Later(s.ui, Step(s, a).ui)
  {
    hide Used, Managed, Passes, IsVisible, IsId, UiInv, Unseated;
    if a.Attach? && 0 <= a.slot < |s.ui.seats| && s.ui.seats[a.slot].Some?
        && Seated(s.ui, s.ui.seats[a.slot].value.id) {
      UnseatedIsLater(s.ui, s.ui.seats[a.slot].value.id);
    } else if a.Detach? && Seated(s.ui, a.id) {
      UnseatedIsLater(s.ui, a.id);
    }
  }

  lemma RevocationIsFinal(s: State, a: Action, id: nat)
    requires UiInv(s.ui) && Enabled(s, a) && id < |s.ui.sessions| && Revokes(s, a, id) && Later(s.ui, Step(s, a).ui)
    ensures Gone(s.ui, Step(s, a).ui, id)
  {
    hide IsId, Later, Unseated;
    if a.Attach? {
      SeatedAt(s.ui, a.slot);
      UnseatedIsLater(s.ui, id);
      hide UiInv;
    } else if a.Detach? {
      UnseatedIsLater(s.ui, id);
      hide UiInv;
    }
  }

  /** Stamps that are gone stay gone. */
  lemma GoneIsInvisible(u: Ui, v: Ui, w: Ui, t: Ticket)
    requires Later(u, v) && Later(v, w) && Stamped(u, t) && Gone(u, v, t.handle.id)
    ensures !IsVisible(w, t)
  {
    assert Aged(v.sessions[t.handle.id], w.sessions[t.handle.id]);
  }

  predicate Stamped(u: Ui, t: Ticket) {
    t.handle.id < |u.sessions| && u.sessions[t.handle.id].handle == t.handle
        && u.sessions[t.handle.id].revision == t.revision && u.gate.epoch == t.epoch
  }

  predicate Admits(a: Action, id: nat) {
    (a.Capture? && a.id == id) || (a.Request? && a.id == id) || (a.Clear? && a.id == id)
  }

  predicate Bears(job: Job, t: Ticket) { Ticketed(job) && job.ticket == t }

  /** The ticket is queued, running or waiting in the mailbox. */
  ghost predicate Carried(s: State, t: Ticket) {
    t in s.ui.mailbox || exists job :: job in Pending(s.desk) && Bears(job, t)
  }

  lemma UiOnlyEmptiesMailbox(s: State, a: Action)
    requires Enabled(s, a) && !OfWorker(a)
    ensures Step(s, a).ui.mailbox == if a.RunCallback? then s.ui.mailbox[1..] else s.ui.mailbox
  {
    hide IsId;
  }

  predicate Admission(a: Action) { a.Capture? || a.Request? || a.Clear? }

  lemma NewTicketOfAdmission(s: State, a: Action, t: Ticket)
    requires UiInv(s.ui) && Enabled(s, a) && Admission(a) && Carried(Step(s, a), t)
    ensures Carried(s, t) || (t.admitted == s.clock && Stamped(Step(s, a).ui, t) && Admits(a, t.handle.id)
                              && IsCurrent(Step(s, a).ui, t))
  {
    hide Admissible;
    var next := Step(s, a);
    if t !in next.ui.mailbox {
      var job :| job in Pending(next.desk) && Bears(job, t);
      if job !in Pending(s.desk) {
        assert next.desk.queue == s.desk.queue + [job];
      }
    }
  }

  lemma NoTicketOfRest(s: State, a: Action, t: Ticket)
    requires Enabled(s, a) && !OfWorker(a) && !Admission(a) && Carried(Step(s, a), t)
    ensures Carried(s, t)
  {
    UiOnlyEmptiesMailbox(s, a);
    hide IsId, Unseated, Emptied;
    var next := Step(s, a);
    if t !in next.ui.mailbox {
      var job :| job in Pending(next.desk) && Bears(job, t);
      assert job in Pending(s.desk);
    }
  }

  lemma NewTicketOfWorker(s: State, a: Action, t: Ticket)
    requires Enabled(s, a) && OfWorker(a) && Carried(Step(s, a), t)
    ensures Carried(s, t)
  {
    hide Used, Managed, IsVisible, IsCurrent;
    var next := Step(s, a);
    if t in next.ui.mailbox {
      if t !in s.ui.mailbox {
        assert s.desk.running.job in Pending(s.desk) && Bears(s.desk.running.job, t);
      }
    } else {
      var job :| job in Pending(next.desk) && Bears(job, t);
      assert job in Pending(s.desk);
    }
  }

  // ----- vaults: each is opened for the session that uses it

  /** An open vault was opened for the slot's session, and is the generation the registry has bound to the slot. */
  ghost predicate SlotOk(slot: Slot, r: Registry, x: nat) {
    && (slot.session.Some? ==> slot.session.value.slot == x)
    && (slot.archive ==> slot.vault.Some?)
    && (slot.vault.Some? ==>
          var v := slot.vault.value;
          && slot.session.Some? && slot.session == Some(Handle(slot.session.value.id, v.slot, v.owner, v.authorization))
          && x in r.bindings && r.bindings[x] == Binding(v.owner, v.authorization, v.generation)
          && !r.resetPending && x !in r.retiring)
  }

  ghost predicate RegistryOk(r: Registry) { forall x :: x in r.bindings ==> r.bindings[x].generation in r.used }

  /** An entry's vault belongs to the session of its ticket. */
  predicate EntryOk(e: Entry, used: set<nat>) {
    e.vault.Some? ==>
        e.vault == Some(Vault(e.ticket.handle.slot, e.ticket.handle.owner, e.ticket.handle.authorization,
        e.vault.value.generation)) && e.vault.value.generation in used
  }

  ghost predicate VaultInv(c: Cabinet) {
    && RegistryOk(c.registry)
    && (forall x :: 0 <= x < |c.slots| ==> SlotOk(c.slots[x], c.registry, x))
    && (forall k :: 0 <= k < |c.log| ==> EntryOk(c.log[k], c.registry.used))
  }

  /** What work on slot `x` may do to the registry: nothing to other slots, unless a reset was pending. */
  ghost predicate RegistryMoves(r: Registry, next: Registry, x: nat) {
    && RegistryOk(next) && r.used <= next.used
    && (!r.resetPending ==>
         && !next.resetPending
         && forall y :: y != x ==>
              && (y in next.bindings <==> y in r.bindings) && (y in r.bindings ==> next.bindings[y] == r.bindings[y])
              && (y in next.retiring <==> y in r.retiring))
  }

  lemma ResetMoves(r: Registry, x: nat, luck: Luck)
    requires RegistryOk(r)
    ensures RegistryMoves(r, Reset(r, luck).0, x) && Reset(r, luck).0.used == r.used
    ensures Reset(r, luck).1 ==> !Reset(r, luck).0.resetPending
  {
  }

  lemma LoggedOutMoves(r: Registry, h: Handle, luck: Luck)
    requires RegistryOk(r)
    ensures RegistryMoves(r, LoggedOut(r, h, luck).0, h.slot) && LoggedOut(r, h, luck).0.used == r.used
    ensures LoggedOut(r, h, luck).0.resetPending == r.resetPending
  {
  }

  lemma OpenedMoves(r: Registry, h: Handle, freshLogin: bool, luck: Luck)
    requires RegistryOk(r) && !r.resetPending && luck.generation !in r.used
    ensures var (next, vault) := Opened(r, h, freshLogin, luck);
            && RegistryMoves(r, next, h.slot)
            && (vault.Some? ==>
                  && vault == Some(Vault(h.slot, h.owner, h.authorization, vault.value.generation))
                  && h.slot in next.bindings
                  && next.bindings[h.slot] == Binding(h.owner, h.authorization, vault.value.generation)
                  && h.slot !in next.retiring
                  && (freshLogin ==> vault.value.generation !in r.used))
  {
  }

  lemma MovesTwice(r: Registry, s: Registry, t: Registry, x: nat)
    requires RegistryMoves(r, s, x) && RegistryMoves(s, t, x)
    ensures RegistryMoves(r, t, x)
  {
  }

  lemma ClearStageMoves(slot: Slot, r: Registry, h: Handle, luck: Luck)
    requires RegistryOk(r) && SlotOk(slot, r, h.slot)
    ensures var (next, registry, ok) := ClearStage(slot, r, h, luck);
            && RegistryMoves(r, registry, h.slot) && registry.used == r.used && SlotOk(next, registry, h.slot)
            && (ok ==> !next.clearPending && (slot.clearPending ==> next.vault.None? && next.freshLogin))
            && (ok && !slot.clearPending ==> next == slot) && (!ok ==> next.clearPending)
  {
    ResetMoves(r, h.slot, luck);
    var reset := Reset(r, luck).0;
    LoggedOutMoves(reset, h, luck);
    MovesTwice(r, reset, LoggedOut(reset, h, luck).0, h.slot);
    hide Reset, LoggedOut;
  }

  lemma OpenStageMoves(slot: Slot, r: Registry, h: Handle, luck: Luck)
    requires RegistryOk(r) && SlotOk(slot, r, h.slot) && slot.session == Some(h) && luck.generation !in r.used
    ensures var (next, registry, ok) := OpenStage(slot, r, h, luck);
            && RegistryMoves(r, registry, h.slot) && SlotOk(next, registry, h.slot)
            && next.clearPending == slot.clearPending
            && (ok ==> next.vault.Some? && next.vault.value.generation in registry.used)
            && (ok && slot.vault.None? && slot.freshLogin ==> next.vault.value.generation !in r.used)
            && (!ok || slot.vault.Some? ==> next == slot)
  {
    ResetMoves(r, h.slot, luck);
    var reset := Reset(r, luck).0;
    if Reset(r, luck).1 {
      OpenedMoves(reset, h, slot.freshLogin, luck);
      MovesTwice(r, reset, Opened(reset, h, slot.freshLogin, luck).0, h.slot);
    }
    hide Reset, Opened;
  }

  lemma ReachedMoves(slot: Slot, r: Registry, h: Handle, luck: Luck)
    requires RegistryOk(r) && SlotOk(slot, r, h.slot) && slot.session == Some(h) && luck.generation !in r.used
    ensures var (next, registry, ok) := Reached(slot, r, h, luck);
            && RegistryMoves(r, registry, h.slot) && SlotOk(next, registry, h.slot)
            && (ok ==> next.vault.Some? && next.vault.value.generation in registry.used && !next.clearPending)
  {
    hide *;
    ClearStageMoves(slot, r, h, luck);
    var (cleared, r1, first) := ClearStage(slot, r, h, luck);
    ReachedOf(slot, r, h, luck);
    if first {
      ClearStageKeepsSession(slot, r, h, luck);
      MovesOk(r, r1, h.slot);
      OpenStageMoves(cleared, r1, h, luck);
      var (vaulted, r2, second) := OpenStage(cleared, r1, h, luck);
      MovesTwice(r, r1, r2, h.slot);
      if second {
        ReadyKeeps(vaulted, r2, h.slot, luck);
      }
    }
  }

  /** The three stages, one after the other. */
  lemma ReachedOf(slot: Slot, r: Registry, h: Handle, luck: Luck)
    requires slot.session == Some(h)
    ensures var (cleared, r1, first) := ClearStage(slot, r, h, luck);
            var (vaulted, r2, second) := OpenStage(cleared, r1, h, luck);
            var (ready, third) := ReadyStage(vaulted, luck);
            Reached(slot, r, h, luck) == if !first then (cleared, r1, false) else if !second then (vaulted, r2, false)
                else (ready, r2, third)
  {
  }

  lemma MovesOk(r: Registry, next: Registry, x: nat)
    requires RegistryMoves(r, next, x)
    ensures RegistryOk(next)
  {
  }

  lemma ClearStageKeepsSession(slot: Slot, r: Registry, h: Handle, luck: Luck)
    ensures ClearStage(slot, r, h, luck).0.session == slot.session
  {
  }

  lemma ReadyKeeps(slot: Slot, r: Registry, x: nat, luck: Luck)
    requires SlotOk(slot, r, x) && slot.vault.Some?
    ensures SlotOk(ReadyStage(slot, luck).0, r, x)
    ensures ReadyStage(slot, luck).0.vault == slot.vault && ReadyStage(slot, luck).0.clearPending == slot.clearPending
  {
  }

  lemma OtherSlots(c: Cabinet, next: Registry, x: nat)
    requires VaultInv(c) && RegistryMoves(c.registry, next, x)
    ensures forall y :: 0 <= y < |c.slots| && y != x ==> SlotOk(c.slots[y], next, y)
    ensures forall k :: 0 <= k < |c.log| ==> EntryOk(c.log[k], next.used)
  {
    forall k | 0 <= k < |c.log| ensures EntryOk(c.log[k], next.used) {
      assert EntryOk(c.log[k], c.registry.used);
    }
    forall y | 0 <= y < |c.slots| && y != x ensures SlotOk(c.slots[y], next, y) {
      assert SlotOk(c.slots[y], c.registry, y);
    }
  }

  /** The slot as an admitted job finds it; a clear has just marked it. */
  function Marked(slot: Slot, job: Job): Slot { if job.ClearJob? then slot.(clearPending := true) else slot }

  lemma MarkedIsOk(slot: Slot, job: Job, r: Registry, x: nat)
    requires SlotOk(slot, r, x)
    ensures SlotOk(Marked(slot, job), r, x) && Marked(slot, job).session == slot.session
  {
  }

  lemma UsedParts(c: Cabinet, job: Job, luck: Luck)
    requires Ticketed(job) && job.ticket.handle.slot < |c.slots|
    ensures var h, d := job.ticket.handle, Used(c, job, luck);
            var (slot, registry, ok) := Reached(Marked(c.slots[h.slot], job), c.registry, h, luck);
            && d.registry == registry && |d.slots| == |c.slots|
            && d.log == c.log + [Entry(job.ticket, job.ClearJob?, if ok then slot.vault else None)]
            && d.slots[h.slot] == slot.(recoveryPending := d.slots[h.slot].recoveryPending)
            && forall y :: 0 <= y < |c.slots| && y != h.slot ==> d.slots[y] == c.slots[y]
  {
    hide Reached;
  }

  lemma UsedKeepsVaults(c: Cabinet, job: Job, luck: Luck)
    requires VaultInv(c) && Ticketed(job) && job.ticket.handle.slot < |c.slots| && luck.generation !in c.registry.used
    requires c.slots[job.ticket.handle.slot].session == Some(job.ticket.handle)
    ensures VaultInv(Used(c, job, luck))
  {
    var h, d := job.ticket.handle, Used(c, job, luck);
    var before := Marked(c.slots[h.slot], job);
    UsedParts(c, job, luck);
    MarkedIsOk(c.slots[h.slot], job, c.registry, h.slot);
    ReachedMoves(before, c.registry, h, luck);
    OtherSlots(c, d.registry, h.slot);
    var (slot, _, ok) := Reached(before, c.registry, h, luck);
    hide Used, Reached, Marked;
    assert EntryOk(d.log[|c.log|], d.registry.used) by {
      if ok {
        assert slot.session == Some(h) by { ReachedKeepsSession(before, c.registry, h, luck); }
      }
    }
  }

  lemma ManagedKeepsVaults(c: Cabinet, job: Job, luck: Luck)
    requires VaultInv(c) && !Ticketed(job) && (!job.ForgetJob? ==> job.handle.slot < |c.slots|)
    ensures VaultInv(Managed(c, job, luck)) && Managed(c, job, luck).log == c.log
  {
    match job {
      case AttachJob(h, _) =>
      case DetachJob(h, loggedOut) =>
        ResetMoves(c.registry, h.slot, luck);
        var reset := Reset(c.registry, luck).0;
        LoggedOutMoves(reset, h, luck);
        MovesTwice(c.registry, reset, LoggedOut(reset, h, luck).0, h.slot);
        OtherSlots(c, reset, h.slot);
        OtherSlots(c, LoggedOut(reset, h, luck).0, h.slot);
        hide Reset, LoggedOut;
      case ForgetJob =>
        var pending := c.registry.(resetPending := true);
        ResetMoves(pending, 0, luck);
        hide Reset;
    }
  }

  /** Sessions older than `id` are all the storage has ever served. */
  ghost predicate Below(c: Cabinet, id: nat) {
    && (forall x :: 0 <= x < |c.slots| && c.slots[x].session.Some? ==> c.slots[x].session.value.id < id)
    && (forall j :: 0 <= j < |c.log| ==> c.log[j].ticket.handle.id < id)
  }

  /** Sessions are attached in the order they were made, each before its first use. */
  ghost predicate AttachInv(s: State) {
    var jobs := Pending(s.desk);
    && Below(s.cabinet, |s.ui.sessions|)
    && (forall k :: 0 <= k < |jobs| && jobs[k].AttachJob? ==>
         jobs[k].handle.id < |s.ui.sessions| && Below(s.cabinet, jobs[k].handle.id))
    && (forall m, k :: 0 <= m < k < |jobs| && jobs[m].AttachJob? && jobs[k].AttachJob? ==>
         jobs[m].handle.id < jobs[k].handle.id)
  }

  lemma BelowMore(c: Cabinet, id: nat, more: nat)
    requires Below(c, id) && id <= more
    ensures Below(c, more)
  {
  }

  lemma AttachStepOfUi(s: State, a: Action)
    requires AttachInv(s) && Enabled(s, a) && !OfWorker(a)
    ensures AttachInv(Step(s, a))
  {
    UiLeavesCabinet(s, a);
    SessionsGrow(s, a);
    var t := Step(s, a);
    BelowMore(s.cabinet, |s.ui.sessions|, |t.ui.sessions|);
    QueueGrows(s, a);
    hide Below, Moved, Step;
    var earlier, jobs := Pending(s.desk), Pending(t.desk);
    assert forall k :: 0 <= k < |earlier| ==> jobs[k] == earlier[k];
  }

  lemma SessionsGrow(s: State, a: Action)
    requires Enabled(s, a) && !OfWorker(a)
    ensures |Step(s, a).ui.sessions| == |s.ui.sessions| || |Step(s, a).ui.sessions| == |s.ui.sessions| + 1
  {
    hide IsId;
  }

  /** A call of the UI thread only appends to the queue, and the session it appends an attachment for is the newest. */
  lemma QueueGrows(s: State, a: Action)
    requires Enabled(s, a) && !OfWorker(a)
    ensures var earlier, jobs := Pending(s.desk), Pending(Step(s, a).desk);
            && |earlier| <= |jobs| && jobs[..|earlier|] == earlier
            && (forall k :: |earlier| <= k < |jobs| && jobs[k].AttachJob? ==>
                 k == |jobs| - 1 && jobs[k].handle.id == |s.ui.sessions| < |Step(s, a).ui.sessions|)
  {
    hide AfterAttach, AfterDetach, AfterCapture, AfterRequest, AfterClear, AfterForgetAll, Emptied;
    match a {
      case Attach(slot, owner, freshLogin, authorization) => AttachQueues(s, slot, owner, freshLogin, authorization);
      case Detach(id, loggedOut) => DetachQueues(s, id, loggedOut);
      case Capture(id, sizes, done) => AdmissionQueues(s, a);
      case Request(id, done) => AdmissionQueues(s, a);
      case Clear(id, done) => AdmissionQueues(s, a);
      case ForgetAll => AdmissionQueues(s, a);
      case _ =>
    }
  }

  lemma DetachQueues(s: State, id: nat, loggedOut: bool)
    ensures var earlier, jobs := Pending(s.desk), Pending(AfterDetach(s, id, loggedOut).desk);
            && |earlier| <= |jobs| && jobs[..|earlier|] == earlier
            && (forall k :: |earlier| <= k < |jobs| ==> !jobs[k].AttachJob?)
  {
    hide Unseated;
  }

  lemma AdmissionQueues(s: State, a: Action)
    requires Enabled(s, a) && (a.Capture? || a.Request? || a.Clear? || a.ForgetAll?)
    ensures var earlier, jobs := Pending(s.desk), Pending(Moved(s, a).desk);
            && |earlier| <= |jobs| && jobs[..|earlier|] == earlier
            && (forall k :: |earlier| <= k < |jobs| ==> !jobs[k].AttachJob?)
  {
    hide Admissible, Emptied, AfterAttach, AfterDetach;
  }

  lemma AttachQueues(s: State, slot: int, owner: nat, freshLogin: bool, authorization: Bytes)
    ensures var earlier, t := Pending(s.desk), AfterAttach(s, slot, owner, freshLogin, authorization);
            var jobs := Pending(t.desk);
            && |earlier| <= |jobs| && jobs[..|earlier|] == earlier
            && (forall k :: |earlier| <= k < |jobs| && jobs[k].AttachJob? ==>
                 k == |jobs| - 1 && jobs[k].handle.id == |s.ui.sessions| < |t.ui.sessions|)
  {
    hide IsId, Unseated;
  }

  lemma BelowUsed(c: Cabinet, job: Job, luck: Luck, id: nat)
    requires Below(c, id) && Ticketed(job) && job.ticket.handle.slot < |c.slots|
    requires c.slots[job.ticket.handle.slot].session == Some(job.ticket.handle)
    ensures Below(Used(c, job, luck), id)
  {
    UsedKeepsSessions(c, job, luck);
    UsedParts(c, job, luck);
    hide Used, Reached;
  }

  lemma BelowManaged(c: Cabinet, job: Job, luck: Luck, id: nat)
    requires Below(c, id) && !Ticketed(job) && (!job.ForgetJob? ==> job.handle.slot < |c.slots|)
    requires job.AttachJob? ==> job.handle.id < id
    ensures Below(Managed(c, job, luck), id)
  {
    hide Reset, LoggedOut;
  }

  lemma AttachStepOfUse(s: State, luck: Luck)
    requires AttachInv(s) && Enabled(s, Use(luck))
    requires s.cabinet.slots[s.desk.running.job.ticket.handle.slot].session == Some(s.desk.running.job.ticket.handle)
    ensures AttachInv(Step(s, Use(luck)))
  {
    forall id | Below(s.cabinet, id) ensures Below(Used(s.cabinet, s.desk.running.job, luck), id) {
      BelowUsed(s.cabinet, s.desk.running.job, luck, id);
    }
    assert Pending(Step(s, Use(luck)).desk) == Pending(s.desk);
    hide Below, Used;
  }

  lemma AttachStepOfManage(s: State, luck: Luck)
    requires AttachInv(s) && Enabled(s, Manage(luck))
    ensures AttachInv(Step(s, Manage(luck)))
  {
    var job := s.desk.running.job;
    var jobs, t := Pending(s.desk), Step(s, Manage(luck));
    assert jobs[0] == job && jobs[1..] == Pending(t.desk);
    forall id | Below(s.cabinet, id) && (job.AttachJob? ==> job.handle.id < id)
      ensures Below(Managed(s.cabinet, job, luck), id)
    {
      BelowManaged(s.cabinet, job, luck, id);
    }
    hide Below, Managed;
  }

  lemma AttachStepOfRest(s: State, a: Action)
    requires AttachInv(s) && DeskInv(s.desk) && Enabled(s, a) && OfWorker(a) && !a.Use? && !a.Manage?
    ensures AttachInv(Step(s, a))
  {
    hide IsVisible, IsCurrent, Load, RunningLoad;
    var jobs, rest := Pending(s.desk), Pending(Step(s, a).desk);
    assert if a.Release? then jobs[1..] == rest else jobs == rest;
    if !a.Exit? {
      hide Below;
    }
  }

  // ----- every session and every binding is of an account that could be attached

  ghost predicate Legit(s: State) {
    && (forall x :: x in s.cabinet.registry.bindings ==>
          Attachable(s.cabinet.registry.bindings[x].owner, s.cabinet.registry.bindings[x].authorization))
    && (forall x :: 0 <= x < |s.cabinet.slots| && s.cabinet.slots[x].session.Some? ==>
          Attachable(s.cabinet.slots[x].session.value.owner, s.cabinet.slots[x].session.value.authorization))
    && (forall job :: job in Pending(s.desk) && job.AttachJob? ==>
         Attachable(job.handle.owner, job.handle.authorization))
  }

  /** Work for a session binds its slot to its own account, or not at all. */
  ghost predicate BindsOwn(r: Registry, next: Registry, h: Handle) {
    forall x :: x in next.bindings ==>
      (x in r.bindings && next.bindings[x] == r.bindings[x])
          || (next.bindings[x].owner == h.owner && next.bindings[x].authorization == h.authorization)
  }

  lemma ReachedBindsOwn(slot: Slot, r: Registry, h: Handle, luck: Luck)
    requires slot.session == Some(h)
    ensures BindsOwn(r, Reached(slot, r, h, luck).1, h)
  {
    hide ClearStage, OpenStage, ReadyStage, Reached;
    ReachedOf(slot, r, h, luck);
    ClearStageBindsOwn(slot, r, h, luck);
    var (cleared, r1, _) := ClearStage(slot, r, h, luck);
    OpenStageBindsOwn(cleared, r1, h, luck);
  }

  lemma ClearStageBindsOwn(slot: Slot, r: Registry, h: Handle, luck: Luck)
    ensures BindsOwn(r, ClearStage(slot, r, h, luck).1, h)
  {
  }

  lemma OpenStageBindsOwn(slot: Slot, r: Registry, h: Handle, luck: Luck)
    ensures BindsOwn(r, OpenStage(slot, r, h, luck).1, h)
  {
    assert BindsOwn(r, Reset(r, luck).0, h);
    assert BindsOwn(Reset(r, luck).0, Opened(Reset(r, luck).0, h, slot.freshLogin, luck).0, h);
    hide Reset, Opened;
  }

  lemma LegitStepOfUse(s: State, luck: Luck)
    requires Legit(s) && SeatInv(s) && Enabled(s, Use(luck))
    ensures Legit(Step(s, Use(luck)))
  {
    hide Attachable, SeatInv, Used;
    UseIs(s, luck);
    RunningJobIsHome(s);
    var job := s.desk.running.job;
    var h := job.ticket.handle;
    UsedKeepsSessions(s.cabinet, job, luck);
    UsedParts(s.cabinet, job, luck);
    MarkedSession(s.cabinet.slots[h.slot], job);
    ReachedBindsOwn(Marked(s.cabinet.slots[h.slot], job), s.cabinet.registry, h, luck);
    hide Reached, Marked;
    assert Pending(Step(s, Use(luck)).desk) == Pending(s.desk);
  }

  lemma MarkedSession(slot: Slot, job: Job)
    ensures Marked(slot, job).session == slot.session
  {
  }

  lemma LegitStepOfManage(s: State, luck: Luck)
    requires Legit(s) && Housed(s.cabinet) && Enabled(s, Manage(luck))
    ensures Legit(Step(s, Manage(luck)))
  {
    hide Attachable;
    var job := s.desk.running.job;
    ManagedSeats(s.cabinet, job, luck);
    ManagedBinds(s.cabinet, job, luck);
    assert job in Pending(s.desk);
    hide Managed;
  }

  lemma ManagedBinds(c: Cabinet, job: Job, luck: Luck)
    requires !Ticketed(job) && (!job.ForgetJob? ==> job.handle.slot < |c.slots|)
    ensures var r, next := c.registry, Managed(c, job, luck).registry;
            forall x :: x in next.bindings ==> x in r.bindings && next.bindings[x] == r.bindings[x]
  {
  }

  lemma LegitStepOfRest(s: State, a: Action)
    requires Legit(s) && Enabled(s, a) && !a.Use? && !a.Manage?
    ensures Legit(Step(s, a))
  {
    if OfWorker(a) {
      hide Attachable, IsVisible, IsCurrent, Used, Managed;
    } else {
      UiLeavesCabinet(s, a);
      hide IsId, Unseated, Emptied, Admissible;
    }
  }

  lemma LegitStep(s: State, a: Action)
    requires Legit(s) && SeatInv(s) && Housed(s.cabinet) && Enabled(s, a)
    ensures Legit(Step(s, a))
  {
    hide *;
    if a.Use? {
      LegitStepOfUse(s, a.luck);
    } else if a.Manage? {
      LegitStepOfManage(s, a.luck);
    } else {
      LegitStepOfRest(s, a);
    }
  }

  // ----- every run

  lemma RunIsLater(states: seq<State>, actions: seq<Action>, slots: nat, i: nat, j: nat)
    requires Run(states, actions, slots) && i <= j < |states|
    ensures Later(states[i].ui, states[j].ui)
    decreases j
  {
    hide Later, Step, Enabled, UiInv;
    if i < j {
      RunIsLater(states, actions, slots, i, j - 1);
      RunKeepsInv(states, actions, slots, j - 1);
      StepIsLater(states[j - 1], actions[j - 1]);
      LaterTrans(states[i].ui, states[j - 1].ui, states[j].ui);
    } else {
      LaterSame(states[i].ui);
    }
  }

  lemma LaterSame(u: Ui)
    ensures Later(u, u)
  {
  }

  ghost predicate Inv(s: State) {
    && DeskInv(s.desk) && UiInv(s.ui) && (s.desk.stopping <==> !s.ui.gate.alive) && SeatInv(s) && Housed(s.cabinet)
    && VaultInv(s.cabinet) && AttachInv(s) && Legit(s)
  }

  lemma InvParts(s: State)
    requires Inv(s)
    ensures DeskInv(s.desk) && UiInv(s.ui) && (s.desk.stopping <==> !s.ui.gate.alive) && SeatInv(s) && Housed(s.cabinet)
    ensures VaultInv(s.cabinet) && AttachInv(s) && Legit(s)
    ensures s.desk.running.Exited? ==> s.desk.stopping
  {
    hide UiInv, SeatInv, Housed, VaultInv, AttachInv, Legit, Load, RunningLoad;
  }

  lemma InvWhole(s: State)
    requires DeskInv(s.desk) && UiInv(s.ui) && (s.desk.stopping <==> !s.ui.gate.alive) && SeatInv(s)
    requires Housed(s.cabinet)
    requires VaultInv(s.cabinet) && AttachInv(s) && Legit(s)
    ensures Inv(s)
  {
    hide DeskInv, UiInv, SeatInv, Housed, VaultInv, AttachInv, Legit;
  }

  lemma StepKeepsInv(s: State, a: Action)
    requires Inv(s) && Enabled(s, a)
    ensures Inv(Step(s, a))
  {
    hide *;
    InvParts(s);
    UiStep(s, a);
    HousedStep(s, a);
    CabinetStep(s, a);
    LegitStep(s, a);
    if OfWorker(a) {
      SeatStepOfWorker(s, a);
      if a.Pop? {
        DeskStepOfPop(s);
      } else {
        DeskStepOfWorker(s, a);
      }
    } else {
      SeatStepOfUi(s, a);
      DeskStepOfUi(s, a);
    }
    InvWhole(Step(s, a));
  }

  lemma RunningJobIsHome(s: State)
    requires SeatInv(s) && s.desk.running.Busy? && Meant(s.desk.running.job).Some?
    ensures var h := Meant(s.desk.running.job).value;
              h.slot < |s.cabinet.slots| && s.cabinet.slots[h.slot].session == Some(h)
  {
    var h := Meant(s.desk.running.job).value;
    assert Pending(s.desk)[0] == s.desk.running.job && s.desk.running.job in Pending(s.desk);
    TidyRest(s.cabinet.slots[h.slot].session, Pending(s.desk), h.slot);
  }

  lemma CabinetStep(s: State, a: Action)
    requires DeskInv(s.desk) && SeatInv(s) && Housed(s.cabinet) && Enabled(s, a)
    requires VaultInv(s.cabinet) && AttachInv(s)
    ensures VaultInv(Step(s, a).cabinet) && AttachInv(Step(s, a))
  {
    hide *;
    if a.Use? {
      CabinetStepOfUse(s, a.luck);
    } else if a.Manage? {
      CabinetStepOfManage(s, a.luck);
    } else if OfWorker(a) {
      AttachStepOfRest(s, a);
      CabinetStepOfRest(s, a);
    } else {
      AttachStepOfUi(s, a);
      UiLeavesCabinet(s, a);
    }
  }

  lemma UseIs(s: State, luck: Luck)
    requires Enabled(s, Use(luck))
    ensures s.desk.running.Busy? && Ticketed(s.desk.running.job)
    ensures Meant(s.desk.running.job) == Some(s.desk.running.job.ticket.handle)
    ensures s.desk.running.job.ticket.handle.slot < |s.cabinet.slots|
    ensures luck.generation !in s.cabinet.registry.used
    ensures Step(s, Use(luck)).cabinet == Used(s.cabinet, s.desk.running.job, luck)
  {
    hide Used;
  }

  lemma CabinetStepOfUse(s: State, luck: Luck)
    requires SeatInv(s) && Enabled(s, Use(luck)) && VaultInv(s.cabinet) && AttachInv(s)
    ensures var t := Step(s, Use(luck)); VaultInv(t.cabinet) && AttachInv(t)
  {
    hide *;
    UseIs(s, luck);
    RunningJobIsHome(s);
    UsedKeepsVaults(s.cabinet, s.desk.running.job, luck);
    AttachStepOfUse(s, luck);
  }

  lemma CabinetStepOfManage(s: State, luck: Luck)
    requires Housed(s.cabinet) && Enabled(s, Manage(luck)) && VaultInv(s.cabinet) && AttachInv(s)
    ensures var t := Step(s, Manage(luck)); VaultInv(t.cabinet) && AttachInv(t)
  {
    var job := s.desk.running.job;
    assert Pending(s.desk)[0] == job;
    ManagedKeepsVaults(s.cabinet, job, luck);
    AttachStepOfManage(s, luck);
    hide Managed, VaultInv, AttachInv;
  }

  lemma CabinetStepOfRest(s: State, a: Action)
    requires Enabled(s, a) && OfWorker(a) && !a.Use? && !a.Manage? && VaultInv(s.cabinet)
    ensures VaultInv(Step(s, a).cabinet)
  {
    hide EntryOk, RegistryOk, IsVisible, IsCurrent;
  }

  lemma StartHolds(s: State, slots: nat)
    requires Starts(s, slots)
    ensures Inv(s)
  {
    StartIsCounted(s, slots);
    StartIsSeated(s, slots);
    StartIsEmpty(s, slots);
    StartIsUnused(s, slots);
    StartIsLegit(s, slots);
    hide DeskInv, SeatInv, UiInv, Housed, VaultInv, AttachInv, Legit;
  }

  lemma StartIsLegit(s: State, slots: nat)
    requires Starts(s, slots)
    ensures Legit(s)
  {
    hide Attachable;
  }

  lemma StartIsUnused(s: State, slots: nat)
    requires Starts(s, slots)
    ensures VaultInv(s.cabinet) && AttachInv(s)
  {
    assert s.cabinet.log == [] && Pending(s.desk) == []
        && (forall x :: 0 <= x < slots ==> s.cabinet.slots[x] == EMPTY_SLOT);
    hide DeskInv;
  }

  lemma StartIsEmpty(s: State, slots: nat)
    requires Starts(s, slots)
    ensures UiInv(s.ui) && Housed(s.cabinet)
  {
    assert s.ui.sessions == []
        && (forall x :: 0 <= x < slots ==> s.ui.seats[x] == None && s.cabinet.slots[x] == EMPTY_SLOT);
    hide Starts, Initial;
  }

  lemma StartIsCounted(s: State, slots: nat)
    requires Starts(s, slots)
    ensures DeskInv(s.desk)
  {
    assert s.desk == Desk([], Resting, Counters(0, 0, 0, 0), false);
    assert Load([]) == Counters(0, 0, 0, 0);
    hide Starts, Load;
  }

  lemma StartIsSeated(s: State, slots: nat)
    requires Starts(s, slots)
    ensures SeatInv(s)
  {
    assert s.desk.queue == [] && s.desk.running.Resting?;
    hide DeskInv;
  }

  lemma {:induction false} RunKeepsInv(states: seq<State>, actions: seq<Action>, slots: nat, i: nat)
    requires Run(states, actions, slots) && i < |states|
    ensures Inv(states[i]) && states[i].clock == i
  {
    hide Inv, Enabled;
    if i == 0 {
      StartHolds(states[0], slots);
    } else {
      RunKeepsInv(states, actions, slots, i - 1);
      hide Moved;
      StepKeepsInv(states[i - 1], actions[i - 1]);
    }
  }

  lemma NewTicket(s: State, a: Action, t: Ticket)
    requires Inv(s) && Enabled(s, a) && Carried(Step(s, a), t)
    ensures Carried(s, t) || (t.admitted == s.clock && Stamped(Step(s, a).ui, t) && Admits(a, t.handle.id)
                              && IsCurrent(Step(s, a).ui, t))
  {
    hide *;
    UiOfInv(s);
    if OfWorker(a) {
      NewTicketOfWorker(s, a, t);
    } else if Admission(a) {
      NewTicketOfAdmission(s, a, t);
    } else {
      NoTicketOfRest(s, a, t);
    }
  }

  /** A ticket in flight was stamped by the call that admitted it. */
  lemma {:induction false} TicketsAreHonest(states: seq<State>, actions: seq<Action>, slots: nat, i: nat, t: Ticket)
    requires Run(states, actions, slots) && i < |states| && Carried(states[i], t)
    ensures t.admitted < i && Admits(actions[t.admitted], t.handle.id) && Stamped(states[t.admitted + 1].ui, t)
    ensures IsCurrent(states[t.admitted + 1].ui, t)
  {
    hide *;
    RunAt(states, actions, slots, i);
    if i == 0 {
      NothingCarried(states[0], slots, t);
    } else {
      RunKeepsInv(states, actions, slots, i - 1);
      NewTicket(states[i - 1], actions[i - 1], t);
      if Carried(states[i - 1], t) {
        TicketsAreHonest(states, actions, slots, i - 1, t);
      }
    }
  }

  /** How the states of a run hang together. */
  lemma RunAt(states: seq<State>, actions: seq<Action>, slots: nat, i: nat)
    requires Run(states, actions, slots) && i < |states|
    ensures |states| == |actions| + 1 && Starts(states[0], slots)
    ensures i > 0 ==> Enabled(states[i - 1], actions[i - 1]) && states[i] == Step(states[i - 1], actions[i - 1])
  {
    hide Starts, Enabled, Step;
  }

  lemma NothingCarried(s: State, slots: nat, t: Ticket)
    requires Starts(s, slots)
    ensures !Carried(s, t)
  {
  }

  lemma UiOfInv(s: State)
    requires Inv(s)
    ensures UiInv(s.ui)
  {
  }

  /**
   * When a result reaches its caller, nothing since the admission has detached or replaced its session, cleared its
   * archive, forgotten everything, changed the lock or destroyed the worker, and the screen was unlocked throughout.
   */
  lemma DoneMeansNeverRevoked(states: seq<State>, actions: seq<Action>, slots: nat, i: nat, k: nat)
    requires Run(states, actions, slots) && i < |actions| && actions[i].RunCallback?
    requires IsVisible(states[i].ui, states[i].ui.mailbox[0])
    requires states[i].ui.mailbox[0].admitted < k < i
    ensures var t := states[i].ui.mailbox[0];
            && Admits(actions[t.admitted], t.handle.id)
            && !Revokes(states[k], actions[k], t.handle.id) && !states[k].ui.gate.locked
  {
    var t := states[i].ui.mailbox[0];
    assert Carried(states[i], t);
    TicketsAreHonest(states, actions, slots, i, t);
    VisibleMeansNeverRevoked(states, actions, slots, i, k, t);
  }

  lemma VisibleMeansNeverRevoked(states: seq<State>, actions: seq<Action>, slots: nat, i: nat, k: nat, t: Ticket)
    requires Run(states, actions, slots) && t.admitted < k < i < |states| && Stamped(states[t.admitted + 1].ui, t)
    requires IsVisible(states[i].ui, t)
    ensures !Revokes(states[k], actions[k], t.handle.id) && !states[k].ui.gate.locked
  {
    var u := states[t.admitted + 1].ui;
    RunIsLater(states, actions, slots, t.admitted + 1, k);
    RunIsLater(states, actions, slots, k, k + 1);
    RunIsLater(states, actions, slots, k, i);
    RunIsLater(states, actions, slots, k + 1, i);
    RunKeepsInv(states, actions, slots, k);
    UiOfInv(states[k]);
    hide Step, Enabled, Revokes, UiInv, Inv;
    StillStamped(u, states[k].ui, states[i].ui, t);
    if Revokes(states[k], actions[k], t.handle.id) {
      RevocationIsFinal(states[k], actions[k], t.handle.id);
      GoneIsInvisible(states[k].ui, states[k + 1].ui, states[i].ui, t);
    }
  }

  /** Between its stamping and a moment where it is visible, a ticket's stamps have not changed. */
  lemma StillStamped(u: Ui, v: Ui, w: Ui, t: Ticket)
    requires Later(u, v) && Later(v, w) && Stamped(u, t) && IsVisible(w, t)
    ensures Stamped(v, t) && !v.gate.locked
  {
    assert Aged(u.sessions[t.handle.id], v.sessions[t.handle.id])
        && Aged(v.sessions[t.handle.id], w.sessions[t.handle.id]);
  }

  lemma {:induction false} LoadIsNatural(jobs: seq<Job>)
    ensures var c := Load(jobs); c.media >= 0 && c.text >= 0 && c.requests >= 0 && c.bytes >= 0
  {
    if jobs != [] {
      LoadIsNatural(jobs[1..]);
    }
  }

  lemma CountersAreNatural(d: Desk)
    requires DeskInv(d)
    ensures d.counters.media >= 0 && d.counters.text >= 0 && d.counters.requests >= 0 && d.counters.bytes >= 0
  {
    LoadIsNatural(d.queue);
    hide Load, Ticketed;
  }

  lemma DrainedCounters(d: Desk)
    requires DeskInv(d) && d.queue == [] && !d.running.Busy?
    ensures d.counters == Counters(0, 0, 0, 0)
  {
  }

  /**
   * At every moment the counters are what is queued and running, within the limits, and nothing once all is drained.
   */
  lemma AdmissionIsConserved(states: seq<State>, actions: seq<Action>, slots: nat, i: nat)
    requires Run(states, actions, slots) && i < |states|
    ensures var d := states[i].desk;
            && d.counters == Plus(Load(d.queue), RunningLoad(d.running))
            && 0 <= d.counters.media <= MEDIA_CAPTURES && 0 <= d.counters.text <= TEXT_CAPTURES
            && 0 <= d.counters.requests <= REQUESTS && 0 <= d.counters.bytes <= TEXT_BYTES
            && (d.running.Exited? ==> d.queue == [])
            && (d.queue == [] && !d.running.Busy? ==> d.counters == Counters(0, 0, 0, 0))
  {
    RunKeepsInv(states, actions, slots, i);
    hide UiInv, SeatInv, Housed, VaultInv, AttachInv, Legit, Run, Load, RunningLoad, Ticketed, Plus;
    var d := states[i].desk;
    CountersAreNatural(d);
    if d.queue == [] && !d.running.Busy? {
      DrainedCounters(d);
    }
  }

  /**
   * An admitted job and a logout always find their own session in the storage, and a drained storage has the UI
   * thread's sessions.
   */
  lemma StorageFollowsSessions(states: seq<State>, actions: seq<Action>, slots: nat, i: nat)
    requires Run(states, actions, slots) && i < |states| && !states[i].desk.running.Exited?
    ensures var s := states[i];
            && (s.desk.running.Busy? && Ticketed(s.desk.running.job) ==>
                  var h := s.desk.running.job.ticket.handle;
                      h.slot < |s.cabinet.slots| && s.cabinet.slots[h.slot].session == Some(h))
            && (s.desk.running.Busy? && s.desk.running.job.DetachJob? ==>
                  var h := s.desk.running.job.handle;
                      h.slot < |s.cabinet.slots| && s.cabinet.slots[h.slot].session == Some(h))
            && (s.desk.queue == [] && s.desk.running.Resting? ==>
                 |s.cabinet.slots| == |s.ui.seats| && forall x :: 0 <= x < |s.ui.seats| ==>
                 s.cabinet.slots[x].session == s.ui.seats[x])
  {
    RunKeepsInv(states, actions, slots, i);
    var s := states[i];
    hide UiInv, Housed, Run, DeskInv, VaultInv, AttachInv, Legit;
    if s.desk.running.Busy? && Meant(s.desk.running.job).Some? {
      RunningJobIsHome(s);
    }
  }

  /** Every vault any job has ever reached was opened for that job's own slot, owner and authorization. */
  lemma EveryVaultIsItsOwn(states: seq<State>, actions: seq<Action>, slots: nat, i: nat, k: nat)
    requires Run(states, actions, slots) && i < |states| && k < |states[i].cabinet.log|
    requires states[i].cabinet.log[k].vault.Some?
    ensures var h, v := states[i].cabinet.log[k].ticket.handle, states[i].cabinet.log[k].vault.value;
            v.slot == h.slot && v.owner == h.owner && v.authorization == h.authorization
  {
    RunKeepsInv(states, actions, slots, i);
    assert EntryOk(states[i].cabinet.log[k], states[i].cabinet.registry.used) by {
      hide DeskInv, UiInv, SeatInv, Housed, AttachInv, Legit, Run;
    }
    hide Inv, Run;
  }

  // ----- when an admitted job is worked on

  /** The calls after which the captures and clears a session had admitted before are dropped. */
  predicate Cancels(s: State, a: Action, id: nat) { Revokes(s, a, id) && !a.SetLocked? }

  /** Requests are dropped when the lock changes, too. */
  predicate Drops(s: State, a: Action, job: Job)
    requires Ticketed(job)
  {
    if job.RequestJob? then Revokes(s, a, job.ticket.handle.id) else Cancels(s, a, job.ticket.handle.id)
  }

  /** The call that admits this very job. */
  predicate Accepts(s: State, a: Action, job: Job)
    requires Ticketed(job)
  {
    var t := job.ticket;
    && t.handle.id < |s.ui.sessions| && s.ui.sessions[t.handle.id].handle == t.handle && t.admitted == s.clock
    && t.epoch == s.ui.gate.epoch
    && match job
       case CaptureJob(_, media, weight) =>
         a.Capture? && a.id == t.handle.id && CaptureEnabled(s.ui, a.id) && t.revision == s.ui.sessions[a.id].revision
         && media == a.sizes.reader && weight == a.sizes.text + a.sizes.content + a.sizes.mime + 192
       case RequestJob(_) =>
           a.Request? && a.id == t.handle.id && Usable(s.ui, a.id) && t.revision == s.ui.sessions[a.id].revision
       case ClearJob(_) =>
           a.Clear? && a.id == t.handle.id && Usable(s.ui, a.id) && t.revision == s.ui.sessions[a.id].revision + 1
       case _ => false
  }

  lemma NewJob(s: State, a: Action, job: Job)
    requires UiInv(s.ui) && Enabled(s, a) && Ticketed(job) && job in Pending(Step(s, a).desk)
    ensures job in Pending(s.desk) || Accepts(s, a, job)
  {
    if OfWorker(a) {
      WorkerAddsNothing(s, a, job);
    } else {
      UiLeavesCabinet(s, a);
      if !Admission(a) {
        RestAddsNothing(s, a, job);
      } else {
        hide Admissible;
        var next := Step(s, a);
        if job !in Pending(s.desk) {
          assert next.desk.queue == s.desk.queue + [job];
        }
      }
    }
  }

  lemma WorkerAddsNothing(s: State, a: Action, job: Job)
    requires Enabled(s, a) && OfWorker(a) && job in Pending(Step(s, a).desk)
    ensures job in Pending(s.desk)
  {
    hide Used, Managed, IsVisible, IsCurrent;
  }

  lemma RestAddsNothing(s: State, a: Action, job: Job)
    requires Enabled(s, a) && !OfWorker(a) && !Admission(a) && Ticketed(job) && job in Pending(Step(s, a).desk)
    ensures job in Pending(s.desk)
  {
    hide IsId, Unseated, Emptied;
  }

  /** A job in flight was admitted by one call of its kind, when that call was allowed. */
  lemma {:induction false} JobsAreHonest(states: seq<State>, actions: seq<Action>, slots: nat, i: nat, job: Job)
    requires Run(states, actions, slots) && i < |states| && Ticketed(job) && job in Pending(states[i].desk)
    ensures job.ticket.admitted < i && Accepts(states[job.ticket.admitted], actions[job.ticket.admitted], job)
  {
    hide *;
    RunAt(states, actions, slots, i);
    if i == 0 {
      NothingPending(states[0], slots, job);
    } else {
      RunKeepsInv(states, actions, slots, i - 1);
      UiOfInv(states[i - 1]);
      NewJob(states[i - 1], actions[i - 1], job);
      if job in Pending(states[i - 1].desk) {
        JobsAreHonest(states, actions, slots, i - 1, job);
      } else {
        AcceptedNow(states[i - 1], actions[i - 1], job);
      }
    }
  }

  lemma NothingPending(s: State, slots: nat, job: Job)
    requires Starts(s, slots)
    ensures job !in Pending(s.desk)
  {
  }

  lemma AcceptedNow(s: State, a: Action, job: Job)
    requires Ticketed(job) && Accepts(s, a, job)
    ensures job.ticket.admitted == s.clock
  {
  }

  lemma AcceptedPasses(s: State, a: Action, job: Job)
    requires Enabled(s, a) && Ticketed(job) && Accepts(s, a, job)
    ensures Passes(Step(s, a).ui, job)
  {
  }

  lemma CurrentStays(s: State, a: Action, t: Ticket)
    requires UiInv(s.ui) && Enabled(s, a) && IsCurrent(s.ui, t)
    ensures IsCurrent(Step(s, a).ui, t) <==> !Cancels(s, a, t.handle.id)
  {
    hide Used, Managed, Passes, IsVisible, IsId;
    if a.Attach? && 0 <= a.slot < |s.ui.seats| && s.ui.seats[a.slot].Some? {
      SeatedAt(s.ui, a.slot);
    }
  }

  lemma VisibleStays(s: State, a: Action, t: Ticket)
    requires UiInv(s.ui) && Enabled(s, a) && IsVisible(s.ui, t)
    ensures IsVisible(Step(s, a).ui, t) <==> !Revokes(s, a, t.handle.id)
  {
    CurrentStays(s, a, t);
    GateSteps(s, a);
    hide Step, Enabled, UiInv, Unseated, IsId;
  }

  lemma {:induction false} NeverRevokedMeansVisible(states: seq<State>, actions: seq<Action>, slots: nat, i: nat,
      t: Ticket)
    requires Run(states, actions, slots) && t.admitted < i < |states| && IsVisible(states[t.admitted + 1].ui, t)
    requires forall k :: t.admitted < k < i ==> !Revokes(states[k], actions[k], t.handle.id)
    ensures IsVisible(states[i].ui, t)
    decreases i
  {
    hide *;
    if i > t.admitted + 1 {
      NeverRevokedMeansVisible(states, actions, slots, i - 1, t);
      RunAt(states, actions, slots, i);
      RunKeepsInv(states, actions, slots, i - 1);
      UiOfInv(states[i - 1]);
      VisibleStays(states[i - 1], actions[i - 1], t);
    }
  }

  /**
   * A ticket in flight may be shown if and only if the screen was unlocked when it was admitted and nothing since then
   * has revoked it: nothing revoked is shown, and nothing else is held back.
   */
  lemma VisibleExactly(states: seq<State>, actions: seq<Action>, slots: nat, i: nat, t: Ticket)
    requires Run(states, actions, slots) && i < |states| && Carried(states[i], t)
    ensures t.admitted < i
    ensures IsVisible(states[i].ui, t) <==>
            && !states[t.admitted].ui.gate.locked
            && forall k :: t.admitted < k < i ==> !Revokes(states[k], actions[k], t.handle.id)
  {
    TicketsAreHonest(states, actions, slots, i, t);
    var c := t.admitted;
    RunAt(states, actions, slots, c + 1);
    GateSteps(states[c], actions[c]);
    RunIsLater(states, actions, slots, c + 1, i);
    VisibleIffUnlocked(states[c + 1].ui, t);
    hide Step, Enabled, Run, Revokes, Carried;
    if IsVisible(states[i].ui, t) {
      StillStamped(states[c + 1].ui, states[c + 1].ui, states[i].ui, t) by {
        LaterSame(states[c + 1].ui);
      }
      forall k | c < k < i ensures !Revokes(states[k], actions[k], t.handle.id) {
        VisibleMeansNeverRevoked(states, actions, slots, i, k, t);
      }
    } else if !states[c].ui.gate.locked && forall k :: c < k < i ==> !Revokes(states[k], actions[k], t.handle.id) {
      NeverRevokedMeansVisible(states, actions, slots, i, t);
    }
  }

  lemma VisibleIffUnlocked(u: Ui, t: Ticket)
    requires Stamped(u, t) && IsCurrent(u, t)
    ensures IsVisible(u, t) <==> !u.gate.locked
  {
  }

  lemma GateSteps(s: State, a: Action)
    requires Enabled(s, a)
    ensures var g, next := s.ui.gate, Step(s, a).ui.gate;
            if a.SetLocked? then next.epoch == (if a.locked != g.locked then g.epoch + 1 else g.epoch)
                && next.locked == a.locked
            else next.locked == g.locked && next.epoch == (if a.ForgetAll? then g.epoch + 1 else g.epoch)
  {
    hide Used, Managed, Passes, IsVisible, IsId;
  }

  /** What has been dropped is not taken up again. */
  lemma DroppedStays(s: State, a: Action, job: Job)
    requires UiInv(s.ui) && Enabled(s, a) && Ticketed(job) && !Passes(s.ui, job)
    requires job.ticket.handle.id < |s.ui.sessions|
    requires job.ticket.revision <= s.ui.sessions[job.ticket.handle.id].revision
    requires job.ticket.epoch <= s.ui.gate.epoch
    requires job.RequestJob? && job.ticket.epoch == s.ui.gate.epoch ==> !s.ui.gate.locked
    ensures !Passes(Step(s, a).ui, job)
  {
    StepIsLater(s, a);
    hide Step, UiInv, Enabled;
    assert Aged(s.ui.sessions[job.ticket.handle.id], Step(s, a).ui.sessions[job.ticket.handle.id]);
  }

  /** The stamps of an admitted job are never ahead of its session. */
  lemma {:induction false} StampsAreOld(states: seq<State>, actions: seq<Action>, slots: nat, i: nat, job: Job)
    requires Run(states, actions, slots) && Ticketed(job) && job.ticket.admitted < i < |states|
    requires Accepts(states[job.ticket.admitted], actions[job.ticket.admitted], job)
    ensures var t, u := job.ticket, states[i].ui;
            && t.handle.id < |u.sessions| && t.revision <= u.sessions[t.handle.id].revision && t.epoch <= u.gate.epoch
            && (job.RequestJob? && t.epoch == u.gate.epoch ==> !u.gate.locked)
  {
    var c := job.ticket.admitted;
    RunAt(states, actions, slots, c + 1);
    RunIsLater(states, actions, slots, c + 1, i);
    AcceptedPasses(states[c], actions[c], job);
    assert Aged(states[c + 1].ui.sessions[job.ticket.handle.id], states[i].ui.sessions[job.ticket.handle.id]);
    hide Run, Step, Enabled, Accepts;
  }

  lemma {:induction false} PassesExactly(states: seq<State>, actions: seq<Action>, slots: nat, c: nat, i: nat, job: Job)
    requires Run(states, actions, slots) && Ticketed(job) && job.ticket.admitted == c < i < |states|
    requires Accepts(states[c], actions[c], job)
    ensures Passes(states[i].ui, job) <==> forall k :: c < k < i ==> !Drops(states[k], actions[k], job)
  {
    hide *;
    RunAt(states, actions, slots, i);
    if i == c + 1 {
      AcceptedPasses(states[i - 1], actions[i - 1], job);
    } else {
      PassesExactly(states, actions, slots, c, i - 1, job);
      StampsAreOld(states, actions, slots, i - 1, job);
      RunKeepsInv(states, actions, slots, i - 1);
      UiOfInv(states[i - 1]);
      PassesStays(states[i - 1], actions[i - 1], job);
    }
  }

  lemma PassesStays(s: State, a: Action, job: Job)
    requires UiInv(s.ui) && Enabled(s, a) && Ticketed(job)
    requires job.ticket.handle.id < |s.ui.sessions|
    requires job.ticket.revision <= s.ui.sessions[job.ticket.handle.id].revision
    requires job.ticket.epoch <= s.ui.gate.epoch
    requires job.RequestJob? && job.ticket.epoch == s.ui.gate.epoch ==> !s.ui.gate.locked
    ensures Passes(Step(s, a).ui, job) <==> Passes(s.ui, job) && !Drops(s, a, job)
  {
    hide Step, Enabled, UiInv, IsVisible, IsCurrent, Revokes, Cancels;
    if !Passes(s.ui, job) {
      DroppedStays(s, a, job);
    } else if job.RequestJob? {
      VisibleStays(s, a, job.ticket);
    } else {
      CurrentStays(s, a, job.ticket);
    }
  }

  /**
   * When the turn of an admitted capture or clear comes, it is worked on if and only if no detach, no attach that
   * replaces its session, no later clear, no forgetAll and no destruction has happened since its admission; a request
   * also needs that the lock has not changed.
   */
  lemma JobIsWorkedOnExactly(states: seq<State>, actions: seq<Action>, slots: nat, i: nat)
    requires Run(states, actions, slots) && i < |actions| && actions[i].Check? && states[i].desk.running.Busy?
    ensures var job := states[i].desk.running.job;
            && Ticketed(job) && job.ticket.admitted < i
            && Accepts(states[job.ticket.admitted], actions[job.ticket.admitted], job)
            && (AtStage(states[i + 1], Using) <==>
                 forall k :: job.ticket.admitted < k < i ==> !Drops(states[k], actions[k], job))
  {
    hide Starts, Enabled, Step, Drops, Accepts, Passes, AtStage, Pending;
    RunAt(states, actions, slots, i + 1);
    CheckIs(states[i]);
    var job := states[i].desk.running.job;
    JobsAreHonest(states, actions, slots, i, job);
    PassesExactly(states, actions, slots, job.ticket.admitted, i, job);
  }

  lemma CheckIs(s: State)
    requires Enabled(s, Check)
    ensures s.desk.running.Busy? && Ticketed(s.desk.running.job) && s.desk.running.job in Pending(s.desk)
    ensures AtStage(Step(s, Check), Using) <==> Passes(s.ui, s.desk.running.job)
  {
    hide Passes;
  }
}
