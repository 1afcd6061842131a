/**
 * The life of an archive generation on Android: its key, its database, the account preferences that refer to it and
 * the tombstone that retires it, across failed commits and process death.  Preferences have a copy in memory, which
 * every edit changes, and one on disk, which a commit that succeeds brings up to date.  A step is one atomic access
 * of one thread; the metadata lock is explicit.
 */
module AndroidArchiveCoordinator {
  import opened Common

  datatype File<T> = File(mem: T, disk: T)

  function Commit<T>(f: File<T>, value: T, ok: bool): File<T> { File(value, if ok then value else f.disk) }

  /** What one account's preferences say: the archive generation, and the owner it was made for, zero for none. */
  datatype Prefs = Prefs(generation: Option<nat>, owner: nat)

  const NOTHING := Prefs(None, 0)

  /** What survives the process; `homes` remembers for which account each generation was ever drawn. */
  datatype Durable = Durable(prefs: seq<File<Prefs>>, tombs: File<set<nat>>, keys: set<nat>, dbs: set<nat>,
      homes: map<nat, nat>)

  datatype Token = Token(account: nat, owner: nat, epoch: nat, lockEpoch: nat, background: bool)

  /** What dies with the process, and what the host says. */
  datatype Session = Session(epochs: seq<nat>, retired: seq<bool>, lockEpoch: nat, owners: seq<nat>, unlocked: bool)

  datatype Holder = Nobody | Host | Worker

  /** The logout call, between its accesses. */
  datatype Logout =
    | Idle | Advancing(account: nat) | Locking(account: nat) | Marking(account: nat, generation: Option<nat>)
    | Removing(account: nat, generation: Option<nat>) | Queueing(generation: Option<nat>)

  datatype Job = CleanupJob | DestroyJob(generation: nat) | OperateJob(token: Token)

  /**
   * Destroying a generation: mark it, take it out of every account's preferences, delete key and database, unmark it.
   */
  datatype Phase = Mark | Enter | Unlink(account: nat) | DropKey | DropDb | Unmark

  /** What follows a destruction: the rest of the cleanup, the rest of an open, or nothing. */
  datatype Next = Finish | CleanRest(left: set<nat>) | CreateNext(token: Token)

  datatype Work =
    | Resting | Cleaning(left: set<nat>) | Destroying(generation: nat, phase: Phase, next: Next)
    | Starting(token: Token) | Entering(token: Token) | Inside(token: Token) | Abandoning(token: Token, generation: nat)
    | Loading(token: Token, generation: nat) | Drawing(token: Token) | Building(token: Token, generation: nat)
    | Offering(token: Token, generation: nat) | Publishing(token: Token, generation: nat)
    | Opened(token: Token, generation: nat) | Operating(token: Token, generation: nat)

  datatype State = State(durable: Durable, session: Session, holder: Holder, logout: Logout, queue: seq<Job>,
      work: Work, cleaned: bool)

  predicate IsCurrent(s: Session, t: Token) {
    && t.owner > 0 && t.account < |s.epochs| == |s.retired| == |s.owners| && !s.retired[t.account]
    && s.epochs[t.account] == t.epoch
    && (t.background || (s.lockEpoch == t.lockEpoch && s.unlocked)) && s.owners[t.account] == t.owner
  }

  /** A process starts with what is on disk, and cleans up first. */
  function Born(d: Durable, owners: seq<nat>, unlocked: bool): State {
    var accounts := |d.prefs|;
    State(d.(prefs := seq(accounts, a requires 0 <= a < accounts => File(d.prefs[a].disk, d.prefs[a].disk)),
        tombs := File(d.tombs.disk, d.tombs.disk)),
          Session(seq(accounts, _ => 0), seq(accounts, _ => false), 0, owners, unlocked),
          Nobody, Idle, [CleanupJob], Resting, false)
  }

  datatype Action =
    // the host's thread
    | LogoutBegin(account: nat) | LogoutAdvance | LogoutLock | LogoutMark(ok: bool) | LogoutRemove(ok: bool)
    | LogoutQueue
    | OwnerChanged(account: nat, next: nat) | Cleared(account: nat) | Lock | HostSays(owners: seq<nat>, unlocked: bool)
    | Flush(account: nat)
    // any thread
    | Submit(token: Token)
    // the worker
    | Pop | PickTomb(generation: nat) | CleanupDone | DestroyStep(ok: bool)
    | Start | EnterOpen | Inspect(ok: bool) | Abandon(ok: bool) | Load(ok: bool) | Draw(generation: nat, ok: bool)
    | Build(ok: bool, created: bool)
    | Offer | Publish(ok: bool) | Recheck | OperateDone
    // the process dies and is started again
    | Crash(owners: seq<nat>, unlocked: bool)

  predicate OfHost(a: Action) {
    a.LogoutBegin? || a.LogoutAdvance? || a.LogoutLock? || a.LogoutMark? || a.LogoutRemove? || a.LogoutQueue?
    || a.OwnerChanged? || a.Cleared? || a.Lock? || a.HostSays? || a.Flush? || a.Submit?
  }

  predicate Enabled(s: State, a: Action) {
    var accounts := |s.durable.prefs|;
    match a
    case LogoutBegin(account) => s.logout.Idle? && account < accounts
    case LogoutAdvance => s.logout.Advancing?
    case LogoutLock => s.logout.Locking? && s.holder.Nobody?
    case LogoutMark(_) => s.logout.Marking?
    case LogoutRemove(_) => s.logout.Removing?
    case LogoutQueue => s.logout.Queueing?
    case OwnerChanged(account, _) => s.logout.Idle? && account < accounts
    case Cleared(account) => s.logout.Idle? && account < |s.session.retired| && s.session.retired[account]
    case Lock => true
    case HostSays(owners, _) => |owners| == accounts
    case Flush(account) => account < accounts
    case Submit(_) => true
    case Pop => s.work.Resting? && s.queue != []
    case PickTomb(generation) => s.work.Cleaning? && generation in s.work.left
    case CleanupDone => s.work.Cleaning? && s.work.left == {}
    case DestroyStep(_) => s.work.Destroying? && (s.work.phase.Enter? ==> s.holder.Nobody?)
    case Start => s.work.Starting?
    case EnterOpen => s.work.Entering? && s.holder.Nobody?
    case Inspect(_) => s.work.Inside?
    case Abandon(_) => s.work.Abandoning?
    case Load(_) => s.work.Loading?
    // A drawn generation is new.
    case Draw(generation, _) => s.work.Drawing? && generation !in s.durable.homes
    case Build(_, _) => s.work.Building?
    case Offer => s.work.Offering? && s.holder.Nobody?
    case Publish(_) => s.work.Publishing?
    case Recheck => s.work.Opened?
    case OperateDone => s.work.Operating?
    case Crash(owners, _) => |owners| == accounts
  }

  function Remarked(d: Durable, generation: nat, ok: bool): Durable {
    d.(tombs := Commit(d.tombs, d.tombs.mem + {generation}, ok))
  }

  function Rewritten(d: Durable, account: nat, value: Prefs, ok: bool): Durable
    requires account < |d.prefs|
  {
    d.(prefs := d.prefs[account := Commit(d.prefs[account], value, ok)])
  }

  function Followed(next: Next): Work {
    match next
    case Finish => Resting
    case CleanRest(left) => Cleaning(left)
    case CreateNext(token) => Drawing(token)
  }

  /** One step of a destruction; any failure ends it and leaves the tombstone. */
  function AfterDestroyStep(s: State, ok: bool): State
    requires s.work.Destroying?
  {
    var g, d := s.work.generation, s.durable;
    match s.work.phase
    case Mark => s.(durable := Remarked(d, g, ok), work := s.work.(phase := Enter))
    case Enter => s.(holder := Worker, work := s.work.(phase := Unlink(0)))
    case Unlink(account) =>
      if account >= |d.prefs| then s.(holder := Nobody, work := s.work.(phase := DropKey))
      else if d.prefs[account].mem.generation != Some(g) then s.(work := s.work.(phase := Unlink(account + 1)))
      else
        var unlinked := s.(durable := Rewritten(d, account, NOTHING, ok));
        if ok then unlinked.(work := s.work.(phase := Unlink(account + 1)))
        else unlinked.(holder := Nobody, work := Followed(s.work.next))
    case DropKey =>
        if ok then s.(durable := d.(keys := d.keys - {g}), work := s.work.(phase := DropDb))
        else s.(work := Followed(s.work.next))
    case DropDb =>
        if ok then s.(durable := d.(dbs := d.dbs - {g}), work := s.work.(phase := Unmark))
        else s.(work := Followed(s.work.next))
    case Unmark => s.(durable := d.(tombs := Commit(d.tombs, d.tombs.mem - {g}, ok)), work := Followed(s.work.next))
  }

  /** With the lock held: reuse the account's generation, refuse a retired one, abandon one of another owner. */
  function AfterInspect(s: State, ok: bool): State
    requires s.work.Inside? && s.work.token.account < |s.durable.prefs|
  {
    var t := s.work.token;
    var p := s.durable.prefs[t.account].mem;
    if p.generation.Some? then
      var g := p.generation.value;
      if g in s.durable.tombs.mem then s.(holder := Nobody, work := Resting)
      else if p.owner == t.owner then s.(holder := Nobody, work := Loading(t, g))
      else s.(durable := Remarked(s.durable, g, ok), work := Abandoning(t, g))
    else s.(holder := Nobody, work := if p.owner != 0 then Resting else Drawing(t))
  }

  function AfterAbandon(s: State, ok: bool): State
    requires s.work.Abandoning? && s.work.token.account < |s.durable.prefs|
  {
    s.(durable := Rewritten(s.durable, s.work.token.account, NOTHING, ok), holder := Nobody,
       work := if ok then Destroying(s.work.generation, Mark, CreateNext(s.work.token)) else Resting)
  }

  /** An existing generation needs its own key and database; neither is ever made anew. */
  function AfterLoad(s: State, ok: bool): State
    requires s.work.Loading?
  {
    var g := s.work.generation;
    s.(work := if IsCurrent(s.session, s.work.token) && g in s.durable.keys && g in s.durable.dbs && ok
        then Opened(s.work.token, g) else Resting)
  }

  function AfterDraw(s: State, generation: nat, ok: bool): State
    requires s.work.Drawing?
  {
    if !IsCurrent(s.session, s.work.token) || !ok then s.(work := Resting)
    else s.(durable := s.durable.(keys := s.durable.keys + {generation},
        homes := s.durable.homes[generation := s.work.token.account]),
            work := Building(s.work.token, generation))
  }

  function AfterBuild(s: State, ok: bool, created: bool): State
    requires s.work.Building?
  {
    var g := s.work.generation;
    s.(durable := s.durable.(dbs := if ok || created then s.durable.dbs + {g} else s.durable.dbs),
       work := if ok then Offering(s.work.token, g) else Destroying(g, Mark, Finish))
  }

  function AfterOffer(s: State): State
    requires s.work.Offering?
  {
    var t, g := s.work.token, s.work.generation;
    if IsCurrent(s.session, t) && t.account < |s.durable.prefs| && s.durable.prefs[t.account].mem.generation.None?
    then s.(holder := Worker, work := Publishing(t, g))
    else s.(work := Destroying(g, Mark, Finish))
  }

  function AfterPublish(s: State, ok: bool): State
    requires s.work.Publishing? && s.work.token.account < |s.durable.prefs|
  {
    var t, g := s.work.token, s.work.generation;
    s.(durable := Rewritten(s.durable, t.account, Prefs(Some(g), t.owner), ok), holder := Nobody,
       work := if ok then Opened(t, g) else Destroying(g, Mark, Finish))
  }

  function AfterPop(s: State): State
    requires s.queue != []
  {
    var rest := s.(queue := s.queue[1..]);
    match s.queue[0]
    case CleanupJob => rest.(work := Cleaning(s.durable.tombs.mem))
    case DestroyJob(g) => rest.(work := Destroying(g, Mark, Finish))
    case OperateJob(t) => rest.(work := Starting(t))
  }

  predicate WellFormed(s: State) {
    && |s.session.epochs| == |s.session.retired| == |s.session.owners| == |s.durable.prefs|
    && (s.logout.Advancing? || s.logout.Locking? || s.logout.Marking? || s.logout.Removing? ==>
         s.logout.account < |s.durable.prefs|)
    && (s.work.Inside? || s.work.Abandoning? || s.work.Loading? || s.work.Publishing? ==>
         s.work.token.account < |s.durable.prefs|)
    && (s.work.Opened? || s.work.Operating? ==> s.work.token.account < |s.durable.prefs|)
    && (s.work.Drawing? || s.work.Building? || s.work.Offering? ==> s.work.token.account < |s.durable.prefs|)
    && (s.work.Destroying? && s.work.next.CreateNext? ==> s.work.next.token.account < |s.durable.prefs|)
  }

  function HostStep(s: State, a: Action): State
    requires WellFormed(s) && Enabled(s, a) && OfHost(a)
  {
    var h := s.session;
    match a
    case LogoutBegin(account) => s.(session := h.(retired := h.retired[account := true]), logout := Advancing(account))
    case LogoutAdvance =>
      s.(session := h.(epochs := h.epochs[s.logout.account := h.epochs[s.logout.account] + 1]),
          logout := Locking(s.logout.account))
    case LogoutLock =>
        s.(holder := Host, logout := Marking(s.logout.account, s.durable.prefs[s.logout.account].mem.generation))
    case LogoutMark(ok) =>
      s.(durable := if s.logout.generation.Some? then Remarked(s.durable, s.logout.generation.value, ok) else s.durable,
         logout := Removing(s.logout.account, s.logout.generation))
    case LogoutRemove(ok) =>
      s.(durable := Rewritten(s.durable, s.logout.account, NOTHING, ok), holder := Nobody,
          logout := Queueing(s.logout.generation))
    case LogoutQueue =>
      s.(queue := if s.logout.generation.Some? then s.queue + [DestroyJob(s.logout.generation.value)]
          else s.queue, logout := Idle)
    case OwnerChanged(account, next) =>
      s.(session := h.(epochs := h.epochs[account := h.epochs[account] + 1],
          retired := h.retired[account := next == 0]))
    case Cleared(account) => s.(session := h.(retired := h.retired[account := h.owners[account] == 0]))
    case Lock => s.(session := h.(lockEpoch := h.lockEpoch + 1))
    case HostSays(owners, unlocked) => s.(session := h.(owners := owners, unlocked := unlocked))
    case Flush(account) => s.(durable := Rewritten(s.durable, account, s.durable.prefs[account].mem, true))
    case Submit(token) => s.(queue := s.queue + [OperateJob(token)])
  }

  function WorkerStep(s: State, a: Action): State
    requires WellFormed(s) && Enabled(s, a) && !OfHost(a)
  {
    match a
    case Pop => AfterPop(s)
    case PickTomb(generation) => s.(work := Destroying(generation, Mark, CleanRest(s.work.left - {generation})))
    case CleanupDone => s.(work := Resting, cleaned := true)
    case DestroyStep(ok) => AfterDestroyStep(s, ok)
    case Start => s.(work := if IsCurrent(s.session, s.work.token) then Entering(s.work.token) else Resting)
    case EnterOpen =>
        if IsCurrent(s.session, s.work.token) then s.(holder := Worker, work := Inside(s.work.token))
        else s.(work := Resting)
    case Inspect(ok) => AfterInspect(s, ok)
    case Abandon(ok) => AfterAbandon(s, ok)
    case Load(ok) => AfterLoad(s, ok)
    case Draw(generation, ok) => AfterDraw(s, generation, ok)
    case Build(ok, created) => AfterBuild(s, ok, created)
    case Offer => AfterOffer(s)
    case Publish(ok) => AfterPublish(s, ok)
    case Recheck =>
        s.(work := if IsCurrent(s.session, s.work.token) then Operating(s.work.token, s.work.generation) else Resting)
    case OperateDone => s.(work := Resting)
    case Crash(owners, unlocked) => Born(s.durable, owners, unlocked)
  }

  function Step(s: State, a: Action): State
    requires WellFormed(s) && Enabled(s, a)
  {
    if OfHost(a) then HostStep(s, a) else WorkerStep(s, a)
  }

  lemma HostStepIsWellFormed(s: State, a: Action)
    requires WellFormed(s) && Enabled(s, a) && OfHost(a)
    ensures WellFormed(Step(s, a)) && |Step(s, a).durable.prefs| == |s.durable.prefs|
  {
  }

  lemma DestroyStepIs(s: State, ok: bool)
    requires WellFormed(s) && Enabled(s, DestroyStep(ok))
    ensures s.work.Destroying? && Step(s, DestroyStep(ok)) == AfterDestroyStep(s, ok)
    ensures s.work.phase.Enter? ==> s.holder.Nobody?
  {
    hide AfterDestroyStep, WellFormed;
  }

  lemma DestroyStepIsWellFormed(s: State, ok: bool)
    requires WellFormed(s) && Enabled(s, DestroyStep(ok))
    ensures WellFormed(Step(s, DestroyStep(ok))) && |Step(s, DestroyStep(ok)).durable.prefs| == |s.durable.prefs|
  {
    DestroyStepIs(s, ok);
    hide Step, Enabled;
  }

  lemma OtherStepIsWellFormed(s: State, a: Action)
    requires WellFormed(s) && Enabled(s, a) && !OfHost(a) && !a.DestroyStep?
    ensures WellFormed(Step(s, a)) && |Step(s, a).durable.prefs| == |s.durable.prefs|
  {
    hide HostStep, AfterDestroyStep;
  }

  // ----- references, tombstones and work always name generations made for the account in question

  ghost predicate Refers(d: Durable, generation: nat) {
    exists a :: 0 <= a < |d.prefs| && d.prefs[a].mem.generation == Some(generation)
  }

  predicate Whole(d: Durable, generation: nat) { generation in d.keys && generation in d.dbs }

  /** An account names generations that were made for it; what it names in memory alone is whole. */
  ghost predicate RefOk(d: Durable, a: nat)
    requires a < |d.prefs|
  {
    && (d.prefs[a].mem.generation.Some? ==>
          d.prefs[a].mem.generation.value in d.homes && d.homes[d.prefs[a].mem.generation.value] == a)
    && (d.prefs[a].disk.generation.Some? ==>
          d.prefs[a].disk.generation.value in d.homes && d.homes[d.prefs[a].disk.generation.value] == a)
    && (d.prefs[a].mem.generation.Some? && d.prefs[a].disk.generation != d.prefs[a].mem.generation ==>
          Whole(d, d.prefs[a].mem.generation.value))
  }

  ghost predicate StoreInv(d: Durable) {
    && (forall a :: 0 <= a < |d.prefs| ==> RefOk(d, a))
    && (forall g :: g in d.tombs.mem || g in d.tombs.disk ==> g in d.homes)
  }

  /** What an account refers to in memory is retired, for the next process too, or whole. */
  ghost predicate MemRefIntact(d: Durable, a: nat)
    requires a < |d.prefs|
  {
    d.prefs[a].mem.generation.Some? ==>
      var g := d.prefs[a].mem.generation.value; (g in d.tombs.mem && g in d.tombs.disk) || Whole(d, g)
  }

  ghost predicate MemIntact(d: Durable) { forall a :: 0 <= a < |d.prefs| ==> MemRefIntact(d, a) }

  /** What the worker knows of the generation it is destroying. */
  ghost predicate DestroyInv(d: Durable, w: Work) {
    && (w.Destroying? ==>
          && w.generation in d.homes && (w.phase.Mark? || w.generation in d.tombs.mem)
          && (w.phase.Unlink? ==>
               forall a :: 0 <= a < w.phase.account && a < |d.prefs| ==>
               d.prefs[a].mem.generation != Some(w.generation))
          && (w.phase.DropKey? || w.phase.DropDb? || w.phase.Unmark? ==> !Refers(d, w.generation))
          && (w.next.CleanRest? ==> forall g :: g in w.next.left ==> g in d.homes))
    && (w.Cleaning? ==> forall g :: g in w.left ==> g in d.homes)
    && (w.Abandoning? ==> w.generation in d.homes && w.generation in d.tombs.mem)
  }

  /** What the worker knows of the generation it is making, or has opened. */
  ghost predicate MakeInv(d: Durable, w: Work) {
    && (w.Building? || w.Offering? || w.Publishing? ==>
          && w.generation in d.homes && d.homes[w.generation] == w.token.account && w.generation in d.keys
          && w.generation !in d.tombs.mem && !Refers(d, w.generation))
    && (w.Offering? || w.Publishing? ==> w.generation in d.dbs)
    && (w.Opened? || w.Operating? ==> Whole(d, w.generation))
    && (w.Publishing? ==> w.token.account < |d.prefs| && d.prefs[w.token.account].mem.generation.None?)
  }

  /** The metadata lock, and what the logout call has read under it. */
  ghost predicate LockInv(s: State) {
    var w := s.work;
    && (s.holder.Worker? <==> w.Inside? || w.Abandoning? || w.Publishing? || (w.Destroying? && w.phase.Unlink?))
    && (s.holder.Host? <==> s.logout.Marking? || s.logout.Removing?)
    && (s.logout.Marking? ==>
         s.logout.account < |s.durable.prefs|
         && s.logout.generation == s.durable.prefs[s.logout.account].mem.generation)
    && (s.logout.Removing? || s.logout.Queueing? ==>
         s.logout.generation.Some? ==> s.logout.generation.value in s.durable.homes)
    && (forall k :: 0 <= k < |s.queue| && s.queue[k].DestroyJob? ==> s.queue[k].generation in s.durable.homes)
  }

  lemma RemarkedIsOk(d: Durable, generation: nat, ok: bool)
    requires StoreInv(d) && generation in d.homes
    ensures StoreInv(Remarked(d, generation, ok)) && (MemIntact(d) ==> MemIntact(Remarked(d, generation, ok)))
  {
    var e := Remarked(d, generation, ok);
    forall a | 0 <= a < |e.prefs| ensures RefOk(e, a) && (MemIntact(d) ==> MemRefIntact(e, a)) {
      assert RefOk(d, a) && (MemIntact(d) ==> MemRefIntact(d, a));
    }
  }

  lemma UnlinkedIsOk(d: Durable, account: nat, ok: bool)
    requires StoreInv(d) && account < |d.prefs|
    ensures var e := Rewritten(d, account, NOTHING, ok);
            && StoreInv(e) && (forall g: nat :: Refers(e, g) ==> Refers(d, g))
            && (MemIntact(d) ==> MemIntact(e))
  {
    var e := Rewritten(d, account, NOTHING, ok);
    forall a | 0 <= a < |e.prefs| ensures RefOk(e, a) && (MemIntact(d) ==> MemRefIntact(e, a)) {
      assert RefOk(d, a) && (MemIntact(d) ==> MemRefIntact(d, a));
    }
    forall g: nat | Refers(e, g) ensures Refers(d, g) {
      var a :| 0 <= a < |e.prefs| && e.prefs[a].mem.generation == Some(g);
      assert d.prefs[a].mem.generation == Some(g);
    }
  }

  lemma DroppedIsOk(d: Durable, generation: nat, e: Durable)
    requires StoreInv(d) && !Refers(d, generation) && e.prefs == d.prefs && e.homes == d.homes
    requires d.keys - {generation} <= e.keys && d.dbs - {generation} <= e.dbs
    requires d.tombs.mem - {generation} <= e.tombs.mem <= d.tombs.mem
    requires e.tombs.disk == d.tombs.disk || e.tombs.disk == e.tombs.mem
    ensures StoreInv(e) && (MemIntact(d) ==> MemIntact(e))
  {
    forall a | 0 <= a < |e.prefs| ensures RefOk(e, a) && (MemIntact(d) ==> MemRefIntact(e, a)) {
      assert RefOk(d, a) && (MemIntact(d) ==> MemRefIntact(d, a));
    }
  }

  lemma PublishedIsOk(d: Durable, account: nat, generation: nat, owner: nat, ok: bool)
    requires StoreInv(d) && account < |d.prefs| && generation in d.homes && d.homes[generation] == account
    requires Whole(d, generation)
    ensures var e := Rewritten(d, account, Prefs(Some(generation), owner), ok);
            StoreInv(e) && (MemIntact(d) ==> MemIntact(e))
  {
    var e := Rewritten(d, account, Prefs(Some(generation), owner), ok);
    forall a | 0 <= a < |e.prefs| ensures RefOk(e, a) && (MemIntact(d) ==> MemRefIntact(e, a)) {
      assert RefOk(d, a) && (MemIntact(d) ==> MemRefIntact(d, a));
    }
  }

  lemma FlushedIsOk(d: Durable, account: nat)
    requires StoreInv(d) && account < |d.prefs|
    ensures var e := Rewritten(d, account, d.prefs[account].mem, true);
            StoreInv(e) && (MemIntact(d) ==> MemIntact(e))
  {
    var e := Rewritten(d, account, d.prefs[account].mem, true);
    forall a | 0 <= a < |e.prefs| ensures RefOk(e, a) && (MemIntact(d) ==> MemRefIntact(e, a)) {
      assert RefOk(d, a) && (MemIntact(d) ==> MemRefIntact(d, a));
    }
  }

  /** A new generation, or more of what a generation is made of, disturbs nothing. */
  lemma GrownIsOk(d: Durable, e: Durable)
    requires StoreInv(d) && e.prefs == d.prefs && e.tombs == d.tombs && d.keys <= e.keys && d.dbs <= e.dbs
    requires forall g :: g in d.homes ==> g in e.homes && e.homes[g] == d.homes[g]
    ensures StoreInv(e) && (MemIntact(d) ==> MemIntact(e))
  {
    forall a | 0 <= a < |e.prefs| ensures RefOk(e, a) && (MemIntact(d) ==> MemRefIntact(e, a)) {
      assert RefOk(d, a) && (MemIntact(d) ==> MemRefIntact(d, a));
    }
  }

  lemma RefersKnown(d: Durable)
    requires StoreInv(d)
    ensures forall g: nat :: Refers(d, g) ==> g in d.homes
  {
    forall g: nat | Refers(d, g) ensures g in d.homes {
      var a :| 0 <= a < |d.prefs| && d.prefs[a].mem.generation == Some(g);
      assert RefOk(d, a);
    }
  }

  ghost predicate MemInv(s: State) {
    WellFormed(s) && StoreInv(s.durable) && DestroyInv(s.durable, s.work) && MakeInv(s.durable, s.work) && LockInv(s)
  }

  lemma SameRefs(d: Durable, e: Durable)
    requires |e.prefs| == |d.prefs| && forall a :: 0 <= a < |d.prefs| ==> e.prefs[a].mem == d.prefs[a].mem
    ensures forall g: nat :: Refers(e, g) <==> Refers(d, g)
  {
    forall g: nat ensures Refers(e, g) <==> Refers(d, g) {
      if Refers(d, g) {
        var a :| 0 <= a < |d.prefs| && d.prefs[a].mem.generation == Some(g);
        assert e.prefs[a].mem.generation == Some(g);
      }
    }
  }

  /** What a step of the host may do to the durable state. */
  lemma HostDurable(s: State, a: Action)
    requires MemInv(s) && Enabled(s, a) && OfHost(a)
    ensures var d, e := s.durable, Step(s, a).durable;
            && StoreInv(e) && (MemIntact(d) ==> MemIntact(e))
            && |e.prefs| == |d.prefs| && e.keys == d.keys && e.dbs == d.dbs && e.homes == d.homes
            && d.tombs.mem <= e.tombs.mem
            && (forall g: nat :: Refers(e, g) ==> Refers(d, g))
            && (forall x :: 0 <= x < |d.prefs| ==>
                 e.prefs[x].mem == d.prefs[x].mem
                 || (a.LogoutRemove? && x == s.logout.account && e.prefs[x].mem == NOTHING))
            && (e.tombs.mem == d.tombs.mem
                 || (a.LogoutMark? && s.logout.generation.Some?
                 && e.tombs.mem == d.tombs.mem + {s.logout.generation.value} && Refers(d, s.logout.generation.value)))
  {
    hide DestroyInv, MakeInv;
    var d := s.durable;
    match a {
      case LogoutMark(ok) =>
        if s.logout.generation.Some? {
          assert RefOk(d, s.logout.account);
          RemarkedIsOk(d, s.logout.generation.value, ok);
          SameRefs(d, Remarked(d, s.logout.generation.value, ok));
        }
      case LogoutRemove(ok) => UnlinkedIsOk(d, s.logout.account, ok);
      case Flush(account) => FlushedIsOk(d, account); SameRefs(d, Rewritten(d, account, d.prefs[account].mem, true));
      case _ =>
    }
    hide StoreInv, MemIntact, Refers, LockInv;
  }

  lemma HostLeavesWorker(s: State, a: Action)
    requires WellFormed(s) && Enabled(s, a) && OfHost(a)
    ensures Step(s, a).work == s.work && Step(s, a).cleaned == s.cleaned
  {
  }

  lemma LockStepOfHost(s: State, a: Action)
    requires MemInv(s) && Enabled(s, a) && OfHost(a)
    ensures LockInv(Step(s, a))
  {
    if a.LogoutLock? || a.LogoutMark? {
      assert RefOk(s.durable, s.logout.account);
    }
    hide StoreInv, DestroyInv, MakeInv;
  }

  lemma MemStepOfHost(s: State, a: Action)
    requires MemInv(s) && Enabled(s, a) && OfHost(a)
    ensures MemInv(Step(s, a))
  {
    HostStepIsWellFormed(s, a);
    HostDurable(s, a);
    HostLeavesWorker(s, a);
    LockStepOfHost(s, a);
    hide StoreInv, Refers, WellFormed, LockInv, Step, Enabled;
  }

  lemma DestroyDurable(s: State, ok: bool)
    requires MemInv(s) && Enabled(s, DestroyStep(ok))
    ensures var d, e := s.durable, Step(s, DestroyStep(ok)).durable;
            && StoreInv(e) && e.homes == d.homes && DestroyInv(e, Step(s, DestroyStep(ok)).work)
            && (MemIntact(d) ==> MemIntact(e))
  {
    DestroyStepIs(s, ok);
    hide MakeInv, LockInv, Step, Enabled, WellFormed;
    var d, g := s.durable, s.work.generation;
    var e := AfterDestroyStep(s, ok).durable;
    if s.work.phase.Mark? {
      RemarkedIsOk(d, g, ok);
      hide StoreInv, Refers;
    } else if s.work.phase.Unlink? {
      if s.work.phase.account < |d.prefs| {
        UnlinkedIsOk(d, s.work.phase.account, ok);
      }
      hide StoreInv;
    } else if s.work.phase.Enter? {
      hide StoreInv, Refers;
    } else {
      DroppedIsOk(d, g, e);
      SameRefs(d, e);
      hide StoreInv, Refers;
    }
  }

  lemma LockStepOfDestroy(s: State, ok: bool)
    requires LockInv(s) && WellFormed(s) && Enabled(s, DestroyStep(ok))
    ensures LockInv(Step(s, DestroyStep(ok)))
    ensures MakeInv(Step(s, DestroyStep(ok)).durable, Step(s, DestroyStep(ok)).work)
  {
    DestroyStepIs(s, ok);
    hide Refers, Step, Enabled, WellFormed;
  }

  lemma MemStepOfDestroy(s: State, ok: bool)
    requires MemInv(s) && Enabled(s, DestroyStep(ok))
    ensures MemInv(Step(s, DestroyStep(ok)))
  {
    hide StoreInv, DestroyInv, MakeInv, LockInv, WellFormed, Step, Enabled;
    DestroyStepIsWellFormed(s, DestroyStep(ok).ok);
    DestroyDurable(s, ok);
    LockStepOfDestroy(s, ok);
  }

  predicate Opening(a: Action) {
    || a.Start? || a.EnterOpen? || a.Inspect? || a.Abandon? || a.Load? || a.Draw? || a.Build? || a.Offer? || a.Publish?
    || a.Recheck? || a.OperateDone?
  }

  lemma DurableStepOfOpen(s: State, a: Action)
    requires MemInv(s) && Enabled(s, a) && Opening(a)
    ensures StoreInv(Step(s, a).durable) && (MemIntact(s.durable) ==> MemIntact(Step(s, a).durable))
  {
    hide DestroyInv, LockInv, HostStep, AfterDestroyStep, AfterPop, Born, IsCurrent;
    var d := s.durable;
    match a {
      case Inspect(ok) =>
        assert RefOk(d, s.work.token.account);
        if d.prefs[s.work.token.account].mem.generation.Some? {
          RemarkedIsOk(d, d.prefs[s.work.token.account].mem.generation.value, ok);
        }
      case Abandon(ok) => UnlinkedIsOk(d, s.work.token.account, ok);
      case Draw(_, _) => GrownIsOk(d, Step(s, a).durable);
      case Build(_, _) => GrownIsOk(d, Step(s, a).durable);
      case Publish(ok) => PublishedIsOk(d, s.work.token.account, s.work.generation, s.work.token.owner, ok);
      case _ =>
    }
    hide StoreInv, Refers;
  }

  lemma WorkStepOfInspect(s: State, ok: bool)
    requires MemInv(s) && Enabled(s, Inspect(ok))
    ensures var t := Step(s, Inspect(ok)); DestroyInv(t.durable, t.work) && MakeInv(t.durable, t.work)
  {
    hide Refers, LockInv, IsCurrent;
    assert RefOk(s.durable, s.work.token.account);
    hide StoreInv;
  }

  lemma WorkStepOfPublish(s: State, a: Action)
    requires MemInv(s) && Enabled(s, a) && (a.Publish? || a.Abandon?)
    ensures DestroyInv(Step(s, a).durable, Step(s, a).work) && MakeInv(Step(s, a).durable, Step(s, a).work)
  {
    hide StoreInv, LockInv, IsCurrent, Refers;
  }

  lemma WorkStepOfMaking(s: State, a: Action)
    requires WellFormed(s) && DestroyInv(s.durable, s.work) && MakeInv(s.durable, s.work) && Enabled(s, a) && Opening(a)
    requires !a.Inspect? && !a.Publish? && !a.Abandon?
    requires forall g: nat :: Refers(s.durable, g) ==> g in s.durable.homes
    requires forall g :: g in s.durable.tombs.mem ==> g in s.durable.homes
    requires forall g: nat :: Refers(Step(s, a).durable, g) <==> Refers(s.durable, g)
    ensures DestroyInv(Step(s, a).durable, Step(s, a).work) && MakeInv(Step(s, a).durable, Step(s, a).work)
  {
    hide HostStep, AfterDestroyStep, AfterPop, Born, IsCurrent, WellFormed, Refers;
  }

  lemma PrefsStayInMaking(s: State, a: Action)
    requires WellFormed(s) && Enabled(s, a) && Opening(a) && !a.Publish? && !a.Abandon?
    ensures Step(s, a).durable.prefs == s.durable.prefs
  {
    hide HostStep, AfterDestroyStep, AfterPop, Born, IsCurrent;
  }

  lemma WorkStepOfOpen(s: State, a: Action)
    requires MemInv(s) && Enabled(s, a) && Opening(a)
    ensures DestroyInv(Step(s, a).durable, Step(s, a).work) && MakeInv(Step(s, a).durable, Step(s, a).work)
  {
    hide StoreInv, DestroyInv, MakeInv, LockInv, Step, Enabled, Opening, WellFormed, Refers;
    if a.Inspect? {
      WorkStepOfInspect(s, a.ok);
    } else if a.Publish? || a.Abandon? {
      WorkStepOfPublish(s, a);
    } else {
      RefersKnown(s.durable);
      TombsKnown(s.durable);
      PrefsStayInMaking(s, a);
      SameRefs(s.durable, Step(s, a).durable);
      WorkStepOfMaking(s, a);
    }
  }

  lemma LockStepOfOpen(s: State, a: Action)
    requires LockInv(s) && WellFormed(s) && Enabled(s, a) && Opening(a)
    ensures LockInv(Step(s, a))
  {
    hide HostStep, AfterDestroyStep, AfterPop, Born, IsCurrent;
  }

  lemma MemStepOfOpen(s: State, a: Action)
    requires MemInv(s) && Enabled(s, a) && Opening(a)
    ensures MemInv(Step(s, a))
  {
    hide StoreInv, DestroyInv, MakeInv, LockInv, WellFormed, Step, Enabled;
    OtherStepIsWellFormed(s, a);
    DurableStepOfOpen(s, a);
    WorkStepOfOpen(s, a);
    LockStepOfOpen(s, a);
  }

  lemma TombsKnown(d: Durable)
    requires StoreInv(d)
    ensures forall g :: g in d.tombs.mem ==> g in d.homes
  {
  }

  lemma QueueStepParts(s: State, a: Action)
    requires WellFormed(s) && DestroyInv(s.durable, s.work) && LockInv(s) && Enabled(s, a)
    requires a.Pop? || a.PickTomb? || a.CleanupDone?
    requires forall g :: g in s.durable.tombs.mem ==> g in s.durable.homes
    ensures var t := Step(s, a);
              t.durable == s.durable && DestroyInv(t.durable, t.work) && MakeInv(t.durable, t.work) && LockInv(t)
  {
    hide WellFormed, Refers, HostStep, AfterDestroyStep, Born;
  }

  lemma MemStepOfQueue(s: State, a: Action)
    requires MemInv(s) && Enabled(s, a) && (a.Pop? || a.PickTomb? || a.CleanupDone?)
    ensures MemInv(Step(s, a))
  {
    hide StoreInv, DestroyInv, MakeInv, LockInv, WellFormed, Step, Enabled;
    OtherStepIsWellFormed(s, a);
    TombsKnown(s.durable);
    QueueStepParts(s, a);
  }

  /** Within one process memory stays sound whatever fails. */
  lemma MemStep(s: State, a: Action)
    requires MemInv(s) && Enabled(s, a) && !a.Crash?
    ensures MemInv(Step(s, a))
  {
    hide MemInv, Step, Enabled;
    if OfHost(a) {
      MemStepOfHost(s, a);
    } else if a.DestroyStep? {
      MemStepOfDestroy(s, a.ok);
    } else if Opening(a) {
      MemStepOfOpen(s, a);
    } else {
      MemStepOfQueue(s, a);
    }
  }

  // ----- on disk: what the next process will find

  ghost predicate Names(d: Durable, generation: nat) {
    exists a :: 0 <= a < |d.prefs| && d.prefs[a].disk.generation == Some(generation)
  }

  /** What the accounts refer to on disk is retired on disk or whole. */
  ghost predicate DiskIntact(d: Durable) {
    forall g: nat :: Names(d, g) ==> g in d.tombs.disk || Whole(d, g)
  }

  /** A process starts with intact memory if and only if it finds an intact disk. */
  lemma BornIsIntact(d: Durable, owners: seq<nat>, unlocked: bool)
    ensures MemIntact(Born(d, owners, unlocked).durable) <==> DiskIntact(d)
  {
    var e := Born(d, owners, unlocked).durable;
    if DiskIntact(d) {
      forall a | 0 <= a < |e.prefs| ensures MemRefIntact(e, a) {
        if e.prefs[a].mem.generation.Some? {
          assert Names(d, e.prefs[a].mem.generation.value);
        }
      }
    }
    if MemIntact(e) {
      forall g: nat | Names(d, g) ensures g in d.tombs.disk || Whole(d, g) {
        var a :| 0 <= a < |d.prefs| && d.prefs[a].disk.generation == Some(g);
        assert MemRefIntact(e, a);
      }
    }
  }

  /** Deletes the key or the database of a generation that the disk still names and that has no tombstone there. */
  ghost predicate DropsNamed(s: State, a: Action) {
    && a.DestroyStep? && a.ok && s.work.Destroying? && (s.work.phase.DropKey? || s.work.phase.DropDb?)
    && Names(s.durable, s.work.generation) && s.work.generation !in s.durable.tombs.disk
  }

  /** The tombstones that a step writes to disk, if it commits any. */
  function Written(s: State, a: Action): Option<set<nat>> {
    var tombs := s.durable.tombs.mem;
    match a
    case LogoutMark(ok) =>
      if ok && s.logout.Marking? && s.logout.generation.Some? then Some(tombs + {s.logout.generation.value}) else None
    case Inspect(ok) =>
      if ok && s.work.Inside? && s.work.token.account < |s.durable.prefs| then
        var p := s.durable.prefs[s.work.token.account].mem;
        if p.generation.Some? && p.generation.value !in tombs && p.owner != s.work.token.owner
        then Some(tombs + {p.generation.value}) else None
      else None
    case DestroyStep(ok) =>
      if ok && s.work.Destroying? && s.work.phase.Mark? then Some(tombs + {s.work.generation})
      else if ok && s.work.Destroying? && s.work.phase.Unmark? then Some(tombs - {s.work.generation})
      else None
    case _ => None
  }

  /** `written` leaves out a tombstone on disk that a generation named there still needs. */
  ghost predicate Forgets(d: Durable, written: set<nat>) {
    exists g: nat :: g in d.tombs.disk && g !in written && Names(d, g) && !Whole(d, g)
  }

  /** The two ways to leave an account of the next process with a generation that is neither retired nor whole. */
  ghost predicate Severs(s: State, a: Action) {
    DropsNamed(s, a) || (Written(s, a).Some? && Forgets(s.durable, Written(s, a).value))
  }

  lemma CommittedTombs(d: Durable, e: Durable)
    requires DiskIntact(d) && e.prefs == d.prefs && e.keys == d.keys && e.dbs == d.dbs
    ensures DiskIntact(e) <==> !Forgets(d, e.tombs.disk)
  {
    forall g: nat ensures Names(e, g) <==> Names(d, g) {
    }
    if DiskIntact(e) {
      forall g: nat | g in d.tombs.disk && g !in e.tombs.disk && Names(d, g) ensures Whole(d, g) {
        assert Names(e, g);
      }
    }
  }

  lemma DroppedOnDisk(d: Durable, e: Durable, generation: nat)
    requires DiskIntact(d) && e.prefs == d.prefs && e.tombs == d.tombs && !Whole(e, generation)
    requires d.keys - {generation} <= e.keys <= d.keys && d.dbs - {generation} <= e.dbs <= d.dbs
    ensures DiskIntact(e) <==> !(Names(d, generation) && generation !in d.tombs.disk)
  {
    forall g: nat ensures Names(e, g) <==> Names(d, g) {
    }
  }

  /** Whatever the disk newly names is whole. */
  lemma NamedOnDisk(d: Durable, e: Durable)
    requires DiskIntact(d) && e.tombs.disk == d.tombs.disk && d.keys <= e.keys && d.dbs <= e.dbs
    requires |e.prefs| == |d.prefs|
    requires forall a :: 0 <= a < |d.prefs| && e.prefs[a].disk.generation.Some? ==>
               e.prefs[a].disk == d.prefs[a].disk || Names(d, e.prefs[a].disk.generation.value)
                   || Whole(e, e.prefs[a].disk.generation.value)
    ensures DiskIntact(e)
  {
    forall g: nat | Names(e, g) ensures g in e.tombs.disk || Whole(e, g) {
      var a :| 0 <= a < |e.prefs| && e.prefs[a].disk.generation == Some(g);
      assert Names(d, g) || Whole(e, g);
    }
  }

  lemma DiskStepOfHost(s: State, a: Action)
    requires MemInv(s) && Enabled(s, a) && OfHost(a) && DiskIntact(s.durable)
    ensures DiskIntact(Step(s, a).durable) <==> !Severs(s, a)
  {
    var d, e := s.durable, Step(s, a).durable;
    if a.LogoutMark? {
      CommittedTombs(d, e);
    } else {
      if a.Flush? {
        assert RefOk(d, a.account);
      }
      NamedOnDisk(d, e);
    }
    hide MemInv, StoreInv, Names, Forgets, DiskIntact;
  }

  lemma DiskStepOfDestroy(s: State, ok: bool)
    requires WellFormed(s) && Enabled(s, DestroyStep(ok)) && DiskIntact(s.durable)
    ensures DiskIntact(Step(s, DestroyStep(ok)).durable) <==> !Severs(s, DestroyStep(ok))
  {
    hide Step, Enabled, WellFormed, Followed;
    DestroyStepIs(s, ok);
    var d, e := s.durable, AfterDestroyStep(s, ok).durable;
    if s.work.phase.Mark? || s.work.phase.Unmark? {
      CommittedTombs(d, e);
    } else if ok && (s.work.phase.DropKey? || s.work.phase.DropDb?) {
      DroppedOnDisk(d, e, s.work.generation);
    } else {
      NamedOnDisk(d, e);
    }
    hide Names, Forgets, DiskIntact;
  }

  lemma DiskStepOfOpen(s: State, a: Action)
    requires MemInv(s) && Enabled(s, a) && Opening(a) && DiskIntact(s.durable)
    ensures DiskIntact(Step(s, a).durable) <==> !Severs(s, a)
  {
    hide StoreInv, DestroyInv, LockInv, Refers, IsCurrent, HostStep, AfterDestroyStep, AfterPop, Born;
    var d, e := s.durable, Step(s, a).durable;
    if a.Inspect? {
      CommittedTombs(d, e);
    } else {
      NamedOnDisk(d, e);
    }
    hide MemInv, Names, Forgets, DiskIntact;
  }

  lemma DiskStepOfRest(s: State, a: Action)
    requires WellFormed(s) && Enabled(s, a) && (a.Pop? || a.PickTomb? || a.CleanupDone? || a.Crash?)
    requires DiskIntact(s.durable)
    ensures DiskIntact(Step(s, a).durable) && !Severs(s, a)
  {
    hide HostStep, AfterDestroyStep;
    NamedOnDisk(s.durable, Step(s, a).durable);
    hide Names, Forgets, DiskIntact;
  }

  /** Whatever the step: an intact disk stays intact if and only if the step is not one of the two that sever. */
  lemma DiskStepExactly(s: State, a: Action)
    requires MemInv(s) && Enabled(s, a) && DiskIntact(s.durable)
    ensures DiskIntact(Step(s, a).durable) <==> !Severs(s, a)
  {
    assert WellFormed(s);
    hide MemInv, Step, Enabled, DiskIntact, Severs;
    if OfHost(a) {
      DiskStepOfHost(s, a);
    } else if a.DestroyStep? {
      DiskStepOfDestroy(s, a.ok);
    } else if Opening(a) {
      DiskStepOfOpen(s, a);
    } else {
      DiskStepOfRest(s, a);
    }
  }

  // ----- runs in which every removal of a reference is committed

  /** What an account's preferences name on disk they also name in memory. */
  ghost predicate Kept(d: Durable) {
    forall a :: 0 <= a < |d.prefs| && d.prefs[a].disk.generation.Some? ==> d.prefs[a].disk == d.prefs[a].mem
  }

  /** The commits that take a generation out of an account's preferences. */
  predicate RemovalFails(s: State, a: Action) {
    || (a.LogoutRemove? && !a.ok) || (a.Abandon? && !a.ok)
    || (a.DestroyStep? && !a.ok && s.work.Destroying? && s.work.phase.Unlink?)
  }

  lemma KeptIsIntact(d: Durable)
    requires MemIntact(d) && Kept(d)
    ensures DiskIntact(d)
  {
    forall g: nat | Names(d, g) ensures g in d.tombs.disk || Whole(d, g) {
      var a :| 0 <= a < |d.prefs| && d.prefs[a].disk.generation == Some(g);
      assert MemRefIntact(d, a);
    }
  }

  lemma KeptStepOfHost(s: State, a: Action)
    requires WellFormed(s) && Kept(s.durable) && Enabled(s, a) && OfHost(a) && !RemovalFails(s, a)
    ensures Kept(Step(s, a).durable)
  {
  }

  lemma KeptStepOfDestroy(s: State, ok: bool)
    requires WellFormed(s) && Kept(s.durable) && Enabled(s, DestroyStep(ok)) && !RemovalFails(s, DestroyStep(ok))
    ensures Kept(Step(s, DestroyStep(ok)).durable)
  {
    DestroyStepIs(s, ok);
    hide Step, Enabled, WellFormed;
  }

  lemma KeptStepOfRest(s: State, a: Action)
    requires MemInv(s) && Kept(s.durable) && Enabled(s, a) && !OfHost(a) && !a.DestroyStep? && !a.Crash?
    requires !RemovalFails(s, a)
    ensures Kept(Step(s, a).durable)
  {
    hide StoreInv, DestroyInv, LockInv, IsCurrent, Born, Refers, HostStep, AfterDestroyStep;
  }

  // ----- what an operation is given

  /** The token of the open in progress, once it has passed its first check under the lock. */
  function Held(w: Work): Option<Token> {
    match w
    case Inside(t) => Some(t)
    case Abandoning(t, _) => Some(t)
    case Loading(t, _) => Some(t)
    case Drawing(t) => Some(t)
    case Building(t, _) => Some(t)
    case Offering(t, _) => Some(t)
    case Publishing(t, _) => Some(t)
    case Opened(t, _) => Some(t)
    case Operating(t, _) => Some(t)
    case Destroying(_, _, next) => if next.CreateNext? then Some(next.token) else None
    case _ => None
  }

  predicate Using(w: Work) { w.Loading? || w.Opened? || w.Operating? }

  /** As long as the session is the one the token was made for, its store is the one its account refers to. */
  ghost predicate SessionInv(s: State) {
    var epochs, d := s.session.epochs, s.durable;
    && (s.logout.Advancing? || s.logout.Locking? || s.logout.Marking? || s.logout.Removing? ==>
          s.logout.account < |s.session.retired| && s.session.retired[s.logout.account])
    && (Held(s.work).Some? ==> var t := Held(s.work).value;
          && t.account < |epochs| && t.account < |d.prefs| && t.epoch <= epochs[t.account]
          && ((s.logout.Locking? || s.logout.Marking? || s.logout.Removing?) && t.account == s.logout.account ==>
                t.epoch < epochs[t.account])
          && (Using(s.work) && t.epoch == epochs[t.account] ==>
                d.prefs[t.account].mem == Prefs(Some(s.work.generation), t.owner) && s.work.generation !in d.tombs.mem))
  }

  /** The generation the logout call retires is its own account's, so another account does not refer to it. */
  lemma LogoutIsOwn(s: State)
    requires MemInv(s) && s.logout.Marking? && s.logout.account < |s.durable.prefs|
    ensures forall a: nat ::
              a < |s.durable.prefs| && a != s.logout.account && s.logout.generation.Some? ==>
                s.durable.prefs[a].mem.generation != s.logout.generation
  {
    hide DestroyInv, MakeInv, WellFormed;
    forall a: nat | a < |s.durable.prefs| && a != s.logout.account && s.logout.generation.Some?
      ensures s.durable.prefs[a].mem.generation != s.logout.generation
    {
      assert RefOk(s.durable, s.logout.account) && RefOk(s.durable, a);
    }
  }

  lemma SessionStepOfLogout(s: State, a: Action)
    requires MemInv(s) && SessionInv(s) && Enabled(s, a) && (a.LogoutMark? || a.LogoutRemove?)
    ensures SessionInv(Step(s, a))
  {
    if a.LogoutMark? {
      LogoutIsOwn(s);
    }
    hide MemInv, StoreInv, Refers, DestroyInv, MakeInv, LockInv, IsCurrent;
  }

  lemma SessionStepOfHost(s: State, a: Action)
    requires MemInv(s) && SessionInv(s) && Enabled(s, a) && OfHost(a)
    ensures SessionInv(Step(s, a))
  {
    if a.LogoutMark? || a.LogoutRemove? {
      SessionStepOfLogout(s, a);
      hide SessionInv, MemInv, Step;
    } else {
      hide StoreInv, Refers, DestroyInv, MakeInv, IsCurrent;
    }
  }

  lemma SessionStepOfDestroy(s: State, ok: bool)
    requires SessionInv(s) && WellFormed(s) && Enabled(s, DestroyStep(ok))
    ensures SessionInv(Step(s, DestroyStep(ok)))
  {
    hide Step, Enabled, WellFormed, Commit;
    DestroyStepIs(s, ok);
  }

  lemma SessionStepOfOpen(s: State, a: Action)
    requires MemInv(s) && SessionInv(s) && Enabled(s, a) && Opening(a)
    ensures SessionInv(Step(s, a))
  {
    hide StoreInv, Refers, DestroyInv, LockInv, HostStep, AfterDestroyStep, AfterPop, Born;
  }

  /** The startup cleanup comes before every operation. */
  ghost predicate CleanInv(s: State) {
    var sweeping := s.work.Cleaning? || (s.work.Destroying? && s.work.next.CleanRest?);
    && (forall k :: 0 < k < |s.queue| ==> !s.queue[k].CleanupJob?)
    && (s.cleaned ==> !sweeping && (s.queue != [] ==> !s.queue[0].CleanupJob?))
    && (!s.cleaned ==> sweeping || (s.work.Resting? && s.queue != [] && s.queue[0].CleanupJob?))
    && (sweeping && s.queue != [] ==> !s.queue[0].CleanupJob?)
  }

  lemma CleanStep(s: State, a: Action)
    requires WellFormed(s) && CleanInv(s) && Enabled(s, a)
    ensures CleanInv(Step(s, a))
  {
    hide IsCurrent, Remarked, Rewritten, WellFormed;
    if OfHost(a) {
      hide AfterDestroyStep, Born;
    } else {
      hide HostStep;
    }
  }

  // ----- every run

  ghost predicate Inv(s: State) { MemInv(s) && SessionInv(s) && CleanInv(s) }

  /** A run starts with a process, on any disk that knows the generations it names. */
  ghost predicate Run(states: seq<State>, actions: seq<Action>) {
    && |states| == |actions| + 1
    && (exists d: Durable, owners: seq<nat>, unlocked: bool ::
          |owners| == |d.prefs| && states[0] == Born(d, owners, unlocked) && StoreInv(states[0].durable))
    && forall i :: 0 <= i < |actions| ==>
         WellFormed(states[i]) && Enabled(states[i], actions[i]) && states[i + 1] == Step(states[i], actions[i])
  }

  lemma BornKeepsInv(d: Durable, owners: seq<nat>, unlocked: bool)
    requires |owners| == |d.prefs| && StoreInv(Born(d, owners, unlocked).durable)
    ensures Inv(Born(d, owners, unlocked)) && Kept(Born(d, owners, unlocked).durable)
  {
    hide StoreInv;
  }

  lemma RebornIsKnown(d: Durable, owners: seq<nat>, unlocked: bool)
    requires StoreInv(d)
    ensures StoreInv(Born(d, owners, unlocked).durable)
  {
    var e := Born(d, owners, unlocked).durable;
    forall a | 0 <= a < |e.prefs| ensures RefOk(e, a) {
      assert RefOk(d, a);
    }
  }

  lemma StepKeepsInv(s: State, a: Action)
    requires Inv(s) && Enabled(s, a)
    ensures Inv(Step(s, a))
  {
    assert WellFormed(s);
    if a.Crash? {
      RebornIsKnown(s.durable, a.owners, a.unlocked);
      BornKeepsInv(s.durable, a.owners, a.unlocked);
      hide MemInv, SessionInv, CleanInv, WellFormed, Born;
    } else {
      MemStep(s, a);
      CleanStep(s, a);
      if OfHost(a) {
        SessionStepOfHost(s, a);
        hide MemInv, SessionInv, CleanInv, Step;
      } else if a.DestroyStep? {
        SessionStepOfDestroy(s, a.ok);
        hide MemInv, SessionInv, CleanInv, Step;
      } else if Opening(a) {
        SessionStepOfOpen(s, a);
        hide MemInv, SessionInv, CleanInv, Step;
      } else {
        SessionStepOfQueue(s, a);
        hide MemInv, SessionInv, CleanInv, Step;
      }
    }
  }

  lemma SessionStepOfQueue(s: State, a: Action)
    requires WellFormed(s) && SessionInv(s) && Enabled(s, a) && (a.Pop? || a.PickTomb? || a.CleanupDone?)
    ensures SessionInv(Step(s, a))
  {
    hide AfterDestroyStep, HostStep, Born;
  }

  /** Whatever fails and whenever the process dies. */
  lemma {:induction false} RunKeepsInv(states: seq<State>, actions: seq<Action>, i: nat)
    requires Run(states, actions) && i < |states|
    ensures Inv(states[i])
  {
    hide Inv, Step, Enabled, WellFormed, StoreInv;
    if i == 0 {
      var d: Durable, owners: seq<nat>, unlocked: bool :|
        |owners| == |d.prefs| && states[0] == Born(d, owners, unlocked) && StoreInv(states[0].durable);
      hide Born;
      BornKeepsInv(d, owners, unlocked);
    } else {
      RunKeepsInv(states, actions, i - 1);
      StepKeepsInv(states[i - 1], actions[i - 1]);
    }
  }

  /**
   * An operation only ever gets a store whose generation its own account refers to, for its own owner, that is not
   * retired and has its key and its database; and only once the startup cleanup is through.
   */
  lemma OperationsGetTheirOwnStore(states: seq<State>, actions: seq<Action>, i: nat)
    requires Run(states, actions) && i < |actions| && actions[i].Recheck? && states[i + 1].work.Operating?
    ensures var t, g, d := states[i + 1].work.token, states[i + 1].work.generation, states[i + 1].durable;
            && t.account < |d.prefs| && d.prefs[t.account].mem == Prefs(Some(g), t.owner) && g !in d.tombs.mem
            && g in d.keys && g in d.dbs && states[i + 1].cleaned
  {
    RunKeepsInv(states, actions, i);
    var s := states[i];
    OpenedIsOwn(s);
    hide Inv, Run, WellFormed;
  }

  lemma OpenedIsOwn(s: State)
    requires Inv(s) && s.work.Opened? && IsCurrent(s.session, s.work.token)
    ensures var t, g, d := s.work.token, s.work.generation, s.durable;
            && t.account < |d.prefs| && d.prefs[t.account].mem == Prefs(Some(g), t.owner) && g !in d.tombs.mem
            && g in d.keys && g in d.dbs && s.cleaned
  {
    hide DestroyInv, StoreInv, LockInv, Refers;
  }

  lemma PartsOfInv(s: State)
    requires Inv(s)
    ensures MemInv(s) && StoreInv(s.durable) && WellFormed(s)
  {
    hide StoreInv;
  }

  /** Within one process what is intact in memory stays so; the next process has what it finds on disk. */
  lemma MemStaysIntact(s: State, a: Action)
    requires MemInv(s) && Enabled(s, a) && (if a.Crash? then DiskIntact(s.durable) else MemIntact(s.durable))
    ensures MemIntact(Step(s, a).durable)
  {
    assert WellFormed(s);
    if a.Crash? {
      BornIsIntact(s.durable, a.owners, a.unlocked);
      assert Step(s, a) == Born(s.durable, a.owners, a.unlocked);
      hide MemInv, MemIntact, Step;
    } else if OfHost(a) {
      HostDurable(s, a);
      hide MemInv, MemIntact, Step;
    } else if a.DestroyStep? {
      DestroyDurable(s, a.ok);
      hide MemInv, MemIntact, Step;
    } else if Opening(a) {
      DurableStepOfOpen(s, a);
      hide MemInv, MemIntact, Step;
    } else {
      hide MemInv, MemIntact, HostStep, AfterDestroyStep;
    }
  }

  /** What an account refers to is retired or whole in every process that found the disk intact, whatever fails. */
  lemma {:induction false} ReferencesAreWhole(states: seq<State>, actions: seq<Action>, i: nat)
    requires Run(states, actions) && i < |states| && DiskIntact(states[0].durable)
    requires forall k :: 0 <= k < i && actions[k].Crash? ==> DiskIntact(states[k].durable)
    ensures MemIntact(states[i].durable)
  {
    hide Inv, Step, Enabled, WellFormed, StoreInv, DiskIntact, MemIntact, MemInv;
    if i == 0 {
      var d: Durable, owners: seq<nat>, unlocked: bool :|
        |owners| == |d.prefs| && states[0] == Born(d, owners, unlocked) && StoreInv(states[0].durable);
      BornAgain(d, owners, unlocked);
      BornIsIntact(Born(d, owners, unlocked).durable, owners, unlocked);
    } else {
      ReferencesAreWhole(states, actions, i - 1);
      RunKeepsInv(states, actions, i - 1);
      PartsOfInv(states[i - 1]);
      MemStaysIntact(states[i - 1], actions[i - 1]);
    }
  }

  lemma BornAgain(d: Durable, owners: seq<nat>, unlocked: bool)
    ensures Born(Born(d, owners, unlocked).durable, owners, unlocked) == Born(d, owners, unlocked)
  {
    var e := Born(d, owners, unlocked).durable;
    assert Born(e, owners, unlocked).durable.prefs == e.prefs;
  }

  /**
   * Across failed commits and process deaths, the disk is intact at every moment if and only if no step deletes the
   * key or database of a generation the disk names without a tombstone, or writes tombstones that leave out one that
   * a generation named on disk still needs.
   */
  lemma {:induction false} DiskIsIntactExactly(states: seq<State>, actions: seq<Action>, n: nat)
    requires Run(states, actions) && n < |states| && DiskIntact(states[0].durable)
    ensures (forall i :: 0 <= i <= n ==> DiskIntact(states[i].durable)) <==>
              (forall k :: 0 <= k < n ==> !Severs(states[k], actions[k]))
  {
    hide *;
    if n > 0 {
      DiskIsIntactExactly(states, actions, n - 1);
      RunKeepsInv(states, actions, n - 1);
      PartsOfInv(states[n - 1]);
      if forall i :: 0 <= i <= n - 1 ==> DiskIntact(states[i].durable) {
        StepOfRun(states, actions, n - 1);
        DiskStepExactly(states[n - 1], actions[n - 1]);
      }
    }
  }

  lemma StepOfRun(states: seq<State>, actions: seq<Action>, i: nat)
    requires Run(states, actions) && i + 1 < |states|
    ensures |states| == |actions| + 1 && WellFormed(states[i]) && Enabled(states[i], actions[i])
    ensures states[i + 1] == Step(states[i], actions[i])
  {
    hide WellFormed, Enabled, Step;
  }

  /**
   * Across any number of process deaths: if every commit that takes a generation out of an account's preferences
   * succeeds, no step severs, whatever else fails.
   */
  lemma {:induction false} CarefulRunsAreDurable(states: seq<State>, actions: seq<Action>, i: nat)
    requires Run(states, actions) && i < |states| && DiskIntact(states[0].durable)
    requires forall k :: 0 <= k < i ==> !RemovalFails(states[k], actions[k])
    ensures Kept(states[i].durable) && DiskIntact(states[i].durable) && MemIntact(states[i].durable)
  {
    hide Inv, Step, Enabled, DiskIntact, WellFormed, Kept, RemovalFails, MemIntact, StoreInv;
    if i == 0 {
      var d: Durable, owners: seq<nat>, unlocked: bool :|
        |owners| == |d.prefs| && states[0] == Born(d, owners, unlocked) && StoreInv(states[0].durable);
      BornKeepsInv(d, owners, unlocked);
      hide Born;
      ReferencesAreWhole(states, actions, i);
    } else {
      CarefulRunsAreDurable(states, actions, i - 1);
      RunKeepsInv(states, actions, i - 1);
      PartsOfInv(states[i - 1]);
      KeptStep(states[i - 1], actions[i - 1]);
      MemStaysIntact(states[i - 1], actions[i - 1]);
    }
    KeptIsIntact(states[i].durable);
  }

  lemma BornIsKept(d: Durable, owners: seq<nat>, unlocked: bool)
    ensures Kept(Born(d, owners, unlocked).durable)
  {
  }

  lemma KeptStep(s: State, a: Action)
    requires MemInv(s) && Kept(s.durable) && WellFormed(s) && Enabled(s, a) && !RemovalFails(s, a)
    ensures Kept(Step(s, a).durable)
  {
    hide MemInv, Kept, Born, WellFormed;
    if OfHost(a) {
      KeptStepOfHost(s, a);
    } else if a.DestroyStep? {
      KeptStepOfDestroy(s, a.ok);
    } else if a.Crash? {
      BornIsKept(s.durable, a.owners, a.unlocked);
    } else {
      KeptStepOfRest(s, a);
    }
  }

  /** Nothing is left of a generation, and nothing in memory refers to it. */
  ghost predicate Destructed(d: Durable, generation: nat) {
    !Refers(d, generation) && generation !in d.keys && generation !in d.dbs
  }

  lemma RefersLess(d: Durable, e: Durable)
    requires |e.prefs| == |d.prefs|
    requires forall a :: 0 <= a < |d.prefs| ==> e.prefs[a].mem == d.prefs[a].mem || e.prefs[a].mem == NOTHING
    ensures forall g: nat :: Refers(e, g) ==> Refers(d, g)
  {
    forall g: nat | Refers(e, g) ensures Refers(d, g) {
      var a :| 0 <= a < |e.prefs| && e.prefs[a].mem.generation == Some(g);
      assert d.prefs[a].mem.generation == Some(g);
    }
  }

  lemma IsDestructed(d: Durable, generation: nat)
    ensures !Refers(d, generation) && generation !in d.keys && generation !in d.dbs ==> Destructed(d, generation)
  {
  }

  lemma StaysDestructed(d: Durable, e: Durable, generation: nat)
    requires (Refers(e, generation) ==> Refers(d, generation)) && e.keys <= d.keys && e.dbs <= d.dbs
    requires Destructed(d, generation)
    ensures Destructed(e, generation)
  {
  }

  // ----- the program's calls, each run alone; every commit, deletion and creation may fail

  class Coordinator {
    var prefs: seq<File<Prefs>>
    var tombs: File<set<nat>>
    var keys: set<nat>
    var dbs: set<nat>
    ghost var homes: map<nat, nat>
    var session: Session
    var queue: seq<Job>
    /** How many commits, deletions and creations have failed. */
    ghost var faults: nat

    ghost function Disk(): Durable
      reads `prefs, `tombs, `keys, `dbs, `homes
    {
      Durable(prefs, tombs, keys, dbs, homes)
    }

    ghost predicate Valid()
      reads this
    {
      && StoreInv(Disk()) && |session.epochs| == |session.retired| == |session.owners| == |prefs|
    }

    /** A process starts from what is on disk, and is intact exactly if the disk is. */
    constructor (d: Durable, owners: seq<nat>, unlocked: bool)
      requires |owners| == |d.prefs| && StoreInv(Born(d, owners, unlocked).durable)
      ensures Valid() && Disk() == Born(d, owners, unlocked).durable && (MemIntact(Disk()) <==> DiskIntact(d))
      ensures session == Born(d, owners, unlocked).session && queue == [CleanupJob] && faults == 0
    {
      BornIsIntact(d, owners, unlocked);
      prefs := seq(|d.prefs|, a requires 0 <= a < |d.prefs| => File(d.prefs[a].disk, d.prefs[a].disk));
      tombs := File(d.tombs.disk, d.tombs.disk);
      keys, dbs, homes := d.keys, d.dbs, d.homes;
      session := Session(seq(|d.prefs|, _ => 0), seq(|d.prefs|, _ => false), 0, owners, unlocked);
      queue, faults := [CleanupJob], 0;
      new;
      assert prefs == Born(d, owners, unlocked).durable.prefs;
      hide StoreInv, MemIntact;
    }

    /** The start-up clean-up: every generation found retired is destroyed, or stays retired if something fails. */
    method CleanUp()
      requires Valid()
      modifies `prefs, `tombs, `keys, `dbs, `faults
      ensures Valid() && |prefs| == |old(prefs)| && (old(MemIntact(Disk())) ==> MemIntact(Disk()))
      ensures old(faults) <= faults
      ensures forall g :: g in old(tombs.mem) ==> g in tombs.mem || Destructed(Disk(), g)
      ensures faults == old(faults) ==> tombs.mem == {}
    {
      TombsKnown(Disk());
      hide StoreInv, Refers, Destructed, MemIntact;
      var left := tombs.mem;
      while left != {}
        invariant Valid() && |prefs| == |old(prefs)| && left <= old(tombs.mem) && old(faults) <= faults
        invariant old(MemIntact(Disk())) ==> MemIntact(Disk())
        invariant forall g :: g in left ==> g in homes
        invariant forall g :: g in old(tombs.mem) ==> g in tombs.mem || (g !in left && Destructed(Disk(), g))
        invariant faults == old(faults) ==> tombs.mem == left
      {
        var generation :| generation in left;
        ghost var d := Disk();
        var ok := Destroy(generation);
        RefersLess(d, Disk());
        forall g | g in old(tombs.mem) ensures g in tombs.mem || (g !in left - {generation} && Destructed(Disk(), g)) {
          if g == generation {
            IsDestructed(Disk(), g);
          } else if g !in tombs.mem {
            StaysDestructed(d, Disk(), g);
          }
        }
        left := left - {generation};
      }
    }

    /** Nothing is left of the generation: no account, key or database. */
    ghost predicate Gone(generation: nat)
      reads this
    {
      && generation !in keys && generation !in dbs
      && forall a :: 0 <= a < |prefs| ==> prefs[a].mem.generation != Some(generation)
    }

    /** A call has neither made nor destroyed, nor retired, anything but of the generations `but`. */
    twostate predicate OnlyChanged(but: set<nat>)
      reads this
    {
      && (forall x :: x !in but ==> (x in keys <==> x in old(keys)))
      && (forall x :: x !in but ==> (x in dbs <==> x in old(dbs)))
      && (forall x :: x !in but ==> (x in tombs.mem <==> x in old(tombs).mem))
    }

    /** A failed tombstone commit is only reported. */
    method Retire(generation: nat)
      modifies `tombs, `faults
      ensures tombs.mem == old(tombs.mem) + {generation} && old(faults) <= faults
      ensures tombs.disk == if faults == old(faults) then tombs.mem else old(tombs.disk)
    {
      var ok: bool := *;
      tombs := Commit(tombs, tombs.mem + {generation}, ok);
      faults := if ok then faults else faults + 1;
    }

    /** Removes a generation from every account that refers to it; stops at the first commit that fails. */
    method Unlink(generation: nat) returns (ok: bool)
      requires StoreInv(Disk())
      modifies `prefs, `faults
      ensures StoreInv(Disk()) && |prefs| == |old(prefs)| && (old(MemIntact(Disk())) ==> MemIntact(Disk()))
      ensures old(faults) <= faults && (ok <==> faults == old(faults)) && (ok ==> !Refers(Disk(), generation))
      ensures forall a :: 0 <= a < |prefs| ==>
                prefs[a].mem == old(prefs[a].mem)
                    || (old(prefs[a].mem.generation) == Some(generation) && prefs[a].mem == NOTHING)
    {
      hide StoreInv, MemIntact;
      for account := 0 to |prefs|
        invariant |prefs| == |old(prefs)| && StoreInv(Disk()) && faults == old(faults)
        invariant old(MemIntact(Disk())) ==> MemIntact(Disk())
        invariant forall a :: 0 <= a < account ==> prefs[a].mem.generation != Some(generation)
        invariant forall a :: 0 <= a < |prefs| ==>
          prefs[a].mem == old(prefs[a].mem)
              || (old(prefs[a].mem.generation) == Some(generation) && prefs[a].mem == NOTHING)
      {
        if prefs[account].mem.generation == Some(generation) {
          UnlinkedIsOk(Disk(), account, true);
          UnlinkedIsOk(Disk(), account, false);
          ok := *;
          prefs := prefs[account := Commit(prefs[account], NOTHING, ok)];
          if !ok {
            faults := faults + 1;
            return false;
          }
        }
      }
      return true;
    }

    /**
     * Key and database go only after the tombstone is set and nothing in memory refers to the generation; the
     * tombstone goes last.
     */
    method Destroy(generation: nat) returns (ok: bool)
      requires Valid() && generation in homes
      modifies `prefs, `tombs, `keys, `dbs, `faults
      ensures Valid() && |prefs| == |old(prefs)| && (old(MemIntact(Disk())) ==> MemIntact(Disk()))
      ensures old(faults) <= faults && (faults == old(faults) ==> ok && tombs.disk == tombs.mem)
      ensures ok ==>
                && !Refers(Disk(), generation) && generation !in keys && generation !in dbs
                && tombs.mem == old(tombs.mem) - {generation}
      ensures !ok ==> tombs.mem == old(tombs.mem) + {generation}
      ensures old(keys) - {generation} <= keys <= old(keys) && old(dbs) - {generation} <= dbs <= old(dbs)
      ensures forall a :: 0 <= a < |prefs| ==>
                prefs[a].mem == old(prefs[a].mem)
                    || (old(prefs[a].mem.generation) == Some(generation) && prefs[a].mem == NOTHING)
    {
      RemarkedIsOk(Disk(), generation, true);
      RemarkedIsOk(Disk(), generation, false);
      hide StoreInv, MemIntact;
      Retire(generation);
      assert Disk() == Remarked(old(Disk()), generation, true) || Disk() == Remarked(old(Disk()), generation, false);
      var unlinked := Unlink(generation);
      if !unlinked {
        return false;
      }
      ghost var d := Disk();
      var dropped: bool := *;
      if !dropped {
        faults := faults + 1;
        return false;
      }
      keys := keys - {generation};
      DroppedIsOk(d, generation, Disk());
      dropped := *;
      if !dropped {
        faults := faults + 1;
        return false;
      }
      dbs := dbs - {generation};
      DroppedIsOk(d, generation, Disk());
      var unmarked: bool := *;
      tombs := Commit(tombs, tombs.mem - {generation}, unmarked);
      faults := if unmarked then faults else faults + 1;
      DroppedIsOk(d, generation, Disk());
      hide Refers;
      SameRefs(d, Disk());
      return true;
    }

    /** An open that finds the account's archive to be another owner's. */
    ghost predicate Displaces(token: Token)
      requires Valid()
      reads this
    {
      && IsCurrent(session, token)
      && var p := prefs[token.account].mem;
         p.generation.Some? && p.generation.value !in tombs.mem && p.owner != token.owner
    }

    /** The guards of an open: a current session, and an account whose metadata is complete and not retired. */
    ghost predicate Opens(token: Token)
      requires Valid()
      reads this
    {
      && IsCurrent(session, token)
      && var p := prefs[token.account].mem;
        if p.generation.None? then p.owner == 0
        else p.generation.value !in tombs.mem && (p.owner == token.owner ==> Whole(Disk(), p.generation.value))
    }

    /**
     * The account's own generation if it has one for this owner, otherwise a new one, which is `drawn`; another
     * owner's is retired first.  Existing data never gets a new key.  When nothing fails, the guards alone decide.
     */
    method Open(token: Token, drawn: nat) returns (r: Result<nat>)
      requires Valid() && drawn !in homes
      modifies `prefs, `tombs, `keys, `dbs, `homes, `faults
      ensures Valid() && |prefs| == |old(prefs)| && (old(MemIntact(Disk())) ==> MemIntact(Disk()))
      ensures old(faults) <= faults && (r.Ok? ==> old(Opens(token)))
      ensures faults == old(faults) ==> (r.Ok? <==> old(Opens(token)))
      ensures r.Ok? ==>
                && prefs[token.account].mem == Prefs(Some(r.value), token.owner) && r.value !in tombs.mem
                && Whole(Disk(), r.value)
      ensures r.Ok? ==>
                if old(prefs)[token.account].mem.generation.Some? && old(prefs)[token.account].mem.owner == token.owner
                then Some(r.value) == old(prefs)[token.account].mem.generation && Disk() == old(Disk())
                else r.value == drawn && prefs[token.account].disk == prefs[token.account].mem
      ensures keys <= old(keys) + {drawn} && dbs <= old(dbs) + {drawn}
      ensures old(Displaces(token)) ==>
                var g := old(prefs)[token.account].mem.generation.value;
                && (g in tombs.mem || Gone(g)) && (faults == old(faults) ==> g !in tombs.mem && Gone(g))
                && OnlyChanged({g, drawn})
      ensures !old(Displaces(token)) ==> OnlyChanged({drawn})
    {
      if !IsCurrent(session, token) {
        return Failed;
      }
      var a := token.account;
      RefersKnown(Disk());
      assert RefOk(Disk(), a);
      assert drawn !in tombs.mem && drawn !in tombs.disk;
      hide StoreInv, MemIntact;
      if prefs[a].mem.generation.Some? {
        var g := prefs[a].mem.generation.value;
        if g in tombs.mem {
          return Failed;
        }
        if prefs[a].mem.owner == token.owner {
          var loaded: bool := *;
          faults := if loaded then faults else faults + 1;
          return if loaded && g in keys && g in dbs then Ok(g) else Failed;
        }
        var removed := Displace(a, g);
        if !removed {
          return Failed;
        }
      } else if prefs[a].mem.owner != 0 {
        return Failed;
      }
      r := Create(a, token.owner, drawn);
    }

    /** Another owner's archive is forgotten by the account, for good before anything is made in its place. */
    method Displace(account: nat, generation: nat) returns (removed: bool)
      requires Valid() && account < |prefs| && prefs[account].mem.generation == Some(generation)
      requires generation !in tombs.mem
      modifies `prefs, `tombs, `keys, `dbs, `faults
      ensures Valid() && |prefs| == |old(prefs)| && (old(MemIntact(Disk())) ==> MemIntact(Disk()))
      ensures old(faults) <= faults && (faults == old(faults) ==> removed)
      ensures prefs[account].mem.generation.None? && generation in homes && keys <= old(keys) && dbs <= old(dbs)
      ensures generation in tombs.mem || Gone(generation)
      ensures faults == old(faults) ==> generation !in tombs.mem && Gone(generation)
      ensures OnlyChanged({generation})
    {
      removed := Abandon(account, generation);
      hide StoreInv, MemIntact;
      if removed {
        var _ := Destroy(generation);
        assert generation !in tombs.mem ==> Gone(generation);
      }
    }

    method Abandon(account: nat, generation: nat) returns (removed: bool)
      requires Valid() && account < |prefs| && prefs[account].mem.generation == Some(generation)
      modifies `prefs, `tombs, `faults
      ensures Valid() && |prefs| == |old(prefs)| && (old(MemIntact(Disk())) ==> MemIntact(Disk()))
      ensures old(faults) <= faults && (faults == old(faults) ==> removed)
      ensures generation in homes && prefs[account].mem == NOTHING && (removed ==> prefs[account].disk == NOTHING)
      ensures tombs.mem == old(tombs.mem) + {generation}
    {
      assert RefOk(Disk(), account);
      RemarkedIsOk(Disk(), generation, true);
      RemarkedIsOk(Disk(), generation, false);
      hide StoreInv, MemIntact;
      Retire(generation);
      assert Disk() == Remarked(old(Disk()), generation, true) || Disk() == Remarked(old(Disk()), generation, false);
      UnlinkedIsOk(Disk(), account, true);
      UnlinkedIsOk(Disk(), account, false);
      removed := *;
      prefs := prefs[account := Commit(prefs[account], NOTHING, removed)];
      faults := if removed then faults else faults + 1;
    }

    /** Makes a key and, once there is one, a database, which may be left behind even by a failure. */
    method Make(account: nat, drawn: nat) returns (keyed: bool, built: bool)
      requires Valid() && account < |prefs| && drawn !in homes
      modifies `keys, `dbs, `homes
      ensures Valid() && (old(MemIntact(Disk())) ==> MemIntact(Disk()))
      ensures !keyed ==> Disk() == old(Disk())
      ensures keyed ==> homes == old(homes)[drawn := account] && keys == old(keys) + {drawn}
      ensures old(dbs) <= dbs <= old(dbs) + {drawn} && (keyed && built ==> drawn in dbs)
    {
      keyed, built := *, *;
      if !keyed {
        return;
      }
      ghost var d := Disk();
      hide StoreInv, MemIntact;
      keys := keys + {drawn};
      homes := homes[drawn := account];
      GrownIsOk(d, Disk());
      var left: bool := *;
      if built || left {
        dbs := dbs + {drawn};
      }
      GrownIsOk(d, Disk());
    }

    /** Succeeds exactly when nothing fails; a generation that cannot be published is destroyed again. */
    method Create(account: nat, owner: nat, drawn: nat) returns (r: Result<nat>)
      requires Valid() && account < |prefs| && prefs[account].mem.generation.None? && drawn !in homes
      requires drawn !in tombs.mem
      modifies `prefs, `tombs, `keys, `dbs, `homes, `faults
      ensures Valid() && |prefs| == |old(prefs)| && (old(MemIntact(Disk())) ==> MemIntact(Disk()))
      ensures old(faults) <= faults && (r.Ok? <==> faults == old(faults))
      ensures r.Ok? ==>
                && r.value == drawn
                && prefs == old(prefs)[account := File(Prefs(Some(drawn), owner), Prefs(Some(drawn), owner))]
                && drawn !in tombs.mem && Whole(Disk(), drawn)
      ensures !r.Ok? ==> drawn in tombs.mem || Gone(drawn) || Disk() == old(Disk())
      ensures keys <= old(keys) + {drawn} && dbs <= old(dbs) + {drawn}
      ensures OnlyChanged({drawn})
      ensures forall a :: 0 <= a < |prefs| ==>
                prefs[a].mem == old(prefs)[a].mem || prefs[a].mem == NOTHING
                    || prefs[a].mem.generation == Some(drawn)
    {
      var keyed, built := Make(account, drawn);
      if !keyed {
        faults := faults + 1;
        return Failed;
      }
      hide StoreInv, MemIntact;
      if built {
        var published: bool := *;
        PublishedIsOk(Disk(), account, drawn, owner, published);
        prefs := prefs[account := Commit(prefs[account], Prefs(Some(drawn), owner), published)];
        if published {
          return Ok(drawn);
        }
      }
      faults := faults + 1;
      var _ := Destroy(drawn);
      return Failed;
    }

    /**
     * Revokes the account's sessions first, then retires and forgets its generation, on disk too when nothing fails,
     * and leaves its destruction to the worker.
     */
    method OnLogout(account: int)
      requires Valid()
      modifies `session, `prefs, `tombs, `queue, `faults
      ensures Valid() && |prefs| == |old(prefs)| && (old(MemIntact(Disk())) ==> MemIntact(Disk()))
      ensures old(faults) <= faults
      ensures account < 0 || account >= |old(prefs)| ==>
                Disk() == old(Disk()) && session == old(session) && queue == old(queue)
      ensures 0 <= account < |old(prefs)| ==>
                && session == old(session).(retired := old(session).retired[account := true],
                                            epochs := old(session).epochs[account := old(session).epochs[account] + 1])
                && prefs[account].mem == NOTHING
                && (forall a :: 0 <= a < |prefs| && a != account ==> prefs[a] == old(prefs)[a])
                && (faults == old(faults) ==> prefs[account].disk == NOTHING)
      ensures 0 <= account < |old(prefs)| ==>
                if old(prefs)[account].mem.generation.Some? then
                  var g := old(prefs)[account].mem.generation.value;
                  && tombs.mem == old(tombs).mem + {g} && queue == old(queue) + [DestroyJob(g)]
                  && (faults == old(faults) ==> tombs.disk == tombs.mem)
                else tombs == old(tombs) && queue == old(queue)
    {
      if account < 0 || account >= |prefs| {
        return;
      }
      session := session.(retired := session.retired[account := true],
          epochs := session.epochs[account := session.epochs[account] + 1]);
      var generation := prefs[account].mem.generation;
      if generation.Some? {
        assert RefOk(Disk(), account);
        RemarkedIsOk(Disk(), generation.value, true);
        RemarkedIsOk(Disk(), generation.value, false);
        Retire(generation.value);
        assert Disk() == Remarked(old(Disk()), generation.value, true)
            || Disk() == Remarked(old(Disk()), generation.value, false);
      }
      assert StoreInv(Disk());
      UnlinkedIsOk(Disk(), account, true);
      UnlinkedIsOk(Disk(), account, false);
      hide StoreInv, MemIntact;
      var removed: bool := *;
      prefs := prefs[account := Commit(prefs[account], NOTHING, removed)];
      faults := if removed then faults else faults + 1;
      if generation.Some? {
        queue := queue + [DestroyJob(generation.value)];
      }
    }
  }

  /**
   * Snapshots of viewed media: at most four wait or run, and the caller's clean-up runs exactly once for each offer.
   */
  class Viewer {
    var pending: nat
    var waiting: seq<nat>
    var cleaned: multiset<nat>
    ghost var offered: multiset<nat>

    ghost predicate Valid()
      reads this
    {
      pending == |waiting| <= 4 && offered == cleaned + multiset(waiting)
    }

    constructor ()
      ensures Valid() && offered == multiset{}
    {
      pending, waiting, cleaned, offered := 0, [], multiset{}, multiset{};
    }

    /** `rejected` says that the executor takes no more work. */
    method PersistViewed(snapshot: nat, background: bool, rejected: bool) returns (accepted: bool)
      requires Valid()
      modifies this
      ensures Valid() && offered == old(offered) + multiset{snapshot}
      ensures accepted <==> background && old(pending) < 4 && !rejected
      ensures if accepted then waiting == old(waiting) + [snapshot] && cleaned == old(cleaned)
              else waiting == old(waiting) && cleaned == old(cleaned) + multiset{snapshot}
    {
      offered := offered + multiset{snapshot};
      if !background {
        cleaned := cleaned + multiset{snapshot};
        return false;
      }
      pending := pending + 1;
      if pending > 4 || rejected {
        pending := pending - 1;
        cleaned := cleaned + multiset{snapshot};
        return false;
      }
      waiting := waiting + [snapshot];
      return true;
    }

    /** Whatever the operation does, its clean-up runs and its place is free again. */
    method RunNext()
      requires Valid() && waiting != []
      modifies this
      ensures Valid() && offered == old(offered) && waiting == old(waiting)[1..]
      ensures cleaned == old(cleaned) + multiset{old(waiting)[0]}
    {
      var snapshot := waiting[0];
      assert waiting == [snapshot] + waiting[1..];
      waiting := waiting[1..];
      cleaned := cleaned + multiset{snapshot};
      pending := pending - 1;
    }
  }

  // ----- a removal that fails, and the account that is stranded by it

  ghost predicate Leads(s: State, actions: seq<Action>, t: State)
    decreases |actions|
  {
    if actions == [] then t == s
    else WellFormed(s) && Enabled(s, actions[0]) && Leads(Step(s, actions[0]), actions[1..], t)
  }

  lemma {:induction false} LeadsFurther(s: State, actions: seq<Action>, t: State, a: Action)
    requires Leads(s, actions, t) && WellFormed(t) && Enabled(t, a)
    ensures Leads(s, actions + [a], Step(t, a))
    decreases |actions|
  {
    hide WellFormed, Enabled, Step;
    if actions == [] {
      assert [a][1..] == [];
      assert Leads(Step(t, a), [], Step(t, a));
      assert actions + [a] == [a];
    } else {
      LeadsFurther(Step(s, actions[0]), actions[1..], t, a);
      assert (actions + [a])[1..] == actions[1..] + [a];
    }
  }

  predicate Uninterrupted(actions: seq<Action>) { forall a :: a in actions ==> !a.Crash? }

  /** The host logs an account out while the worker is idle or elsewhere than under the lock. */
  function LogoutOf(account: nat, marked: bool, removed: bool): seq<Action> {
    [LogoutBegin(account)] + [LogoutAdvance] + [LogoutLock] + [LogoutMark(marked)] + [LogoutRemove(removed)]
        + [LogoutQueue]
  }

  function LoggedOut(s: State, account: nat, marked: bool, removed: bool): State
    requires WellFormed(s) && account < |s.durable.prefs|
  {
    var g, h := s.durable.prefs[account].mem.generation, s.session;
    var d := if g.Some? then Remarked(s.durable, g.value, marked) else s.durable;
    s.(durable := Rewritten(d, account, NOTHING, removed),
       session := h.(retired := h.retired[account := true], epochs := h.epochs[account := h.epochs[account] + 1]),
       queue := if g.Some? then s.queue + [DestroyJob(g.value)] else s.queue)
  }

  predicate AtRest(s: State) { WellFormed(s) && s.logout.Idle? && s.holder.Nobody? && s.work.Resting? }

  /** The logout call when it holds the lock and has read the account's generation. */
  function Stopped(s: State, account: nat): State
    requires WellFormed(s) && account < |s.durable.prefs|
  {
    var h := s.session;
    s.(session := h.(retired := h.retired[account := true], epochs := h.epochs[account := h.epochs[account] + 1]),
       holder := Host, logout := Marking(account, s.durable.prefs[account].mem.generation))
  }

  lemma LogoutBegins(s: State, account: nat) returns (t: State)
    requires AtRest(s) && account < |s.durable.prefs|
    ensures Leads(s, [LogoutBegin(account)], t) && WellFormed(t)
    ensures t == s.(session := s.session.(retired := s.session.retired[account := true]), logout := Advancing(account))
  {
    hide Leads;
    t := Step(s, LogoutBegin(account));
    LeadsByOne(s, LogoutBegin(account));
  }

  lemma LogoutAdvances(s: State) returns (t: State)
    requires WellFormed(s) && s.logout.Advancing?
    ensures var a, h := s.logout.account, s.session;
            t == s.(session := h.(epochs := h.epochs[a := h.epochs[a] + 1]), logout := Locking(a))
    ensures Enabled(s, LogoutAdvance) && t == Step(s, LogoutAdvance) && WellFormed(t)
  {
    t := Step(s, LogoutAdvance);
  }

  lemma LogoutLocks(s: State) returns (t: State)
    requires WellFormed(s) && s.logout.Locking? && s.holder.Nobody?
    ensures t == s.(holder := Host,
              logout := Marking(s.logout.account, s.durable.prefs[s.logout.account].mem.generation))
    ensures Enabled(s, LogoutLock) && t == Step(s, LogoutLock) && WellFormed(t)
  {
    t := Step(s, LogoutLock);
  }

  lemma LogoutStops(s: State, account: nat)
    requires AtRest(s) && account < |s.durable.prefs|
    ensures Leads(s, [LogoutBegin(account)] + [LogoutAdvance] + [LogoutLock], Stopped(s, account))
    ensures WellFormed(Stopped(s, account))
  {
    hide Leads, Step, Enabled, WellFormed;
    var t := LogoutBegins(s, account);
    var u := LogoutAdvances(t);
    var v := LogoutLocks(u);
    LeadsFurther(s, [LogoutBegin(account)], t, LogoutAdvance);
    LeadsFurther(s, [LogoutBegin(account)] + [LogoutAdvance], u, LogoutLock);
    assert v == Stopped(s, account);
  }

  lemma LogoutEnds(s: State, account: nat, marked: bool, removed: bool, t: State, before: seq<Action>)
    requires AtRest(s) && account < |s.durable.prefs| && t == Stopped(s, account) && Leads(s, before, t)
    requires WellFormed(t)
    ensures Leads(s, before + [LogoutMark(marked)] + [LogoutRemove(removed)] + [LogoutQueue],
                LoggedOut(s, account, marked, removed))
    ensures AtRest(LoggedOut(s, account, marked, removed))
  {
    hide Leads;
    LeadsFurther(s, before, t, LogoutMark(marked));
    var s4 := Step(t, LogoutMark(marked));
    LeadsFurther(s, before + [LogoutMark(marked)], s4, LogoutRemove(removed));
    var s5 := Step(s4, LogoutRemove(removed));
    LeadsFurther(s, before + [LogoutMark(marked)] + [LogoutRemove(removed)], s5, LogoutQueue);
    assert Step(s5, LogoutQueue) == LoggedOut(s, account, marked, removed);
  }

  lemma LogoutRun(s: State, account: nat, marked: bool, removed: bool)
    requires AtRest(s) && account < |s.durable.prefs|
    ensures Leads(s, LogoutOf(account, marked, removed), LoggedOut(s, account, marked, removed))
    ensures AtRest(LoggedOut(s, account, marked, removed)) && Uninterrupted(LogoutOf(account, marked, removed))
  {
    hide Leads, WellFormed, Stopped, LoggedOut;
    LogoutStops(s, account);
    LogoutEnds(s, account, marked, removed, Stopped(s, account),
        [LogoutBegin(account)] + [LogoutAdvance] + [LogoutLock]);
  }

  lemma StaysPut(s: State)
    ensures Leads(s, [], s)
  {
  }

  lemma {:induction false} LeadsOn(s: State, first: seq<Action>, t: State, rest: seq<Action>, u: State)
    requires Leads(s, first, t) && Leads(t, rest, u) && Uninterrupted(first) && Uninterrupted(rest)
    ensures Leads(s, first + rest, u) && Uninterrupted(first + rest)
    decreases |first|
  {
    hide WellFormed, Enabled, Step;
    if first == [] {
      assert first + rest == rest;
    } else {
      assert Uninterrupted(first[1..]);
      LeadsOn(Step(s, first[0]), first[1..], t, rest, u);
      assert (first + rest)[1..] == first[1..] + rest;
    }
  }

  lemma LeadsByOne(s: State, a: Action)
    requires WellFormed(s) && Enabled(s, a) && !a.Crash?
    ensures Leads(s, [a], Step(s, a)) && Uninterrupted([a])
  {
    hide WellFormed, Enabled, Step;
    StaysPut(s);
    LeadsFurther(s, [], s, a);
    assert [] + [a] == [a];
  }

  /**
   * The destruction of a generation that nothing in memory refers to, all of it successful but perhaps the last commit.
   */
  function Destroyed(d: Durable, generation: nat, unmarked: bool): Durable {
    var marked := Remarked(d, generation, true);
    marked.(keys := d.keys - {generation}, dbs := d.dbs - {generation},
            tombs := Commit(marked.tombs, marked.tombs.mem - {generation}, unmarked))
  }

  lemma {:induction false} UnlinkRun(s: State) returns (actions: seq<Action>)
    requires WellFormed(s) && s.work.Destroying? && s.work.phase.Unlink? && s.work.phase.account <= |s.durable.prefs|
    requires !Refers(s.durable, s.work.generation)
    ensures Leads(s, actions, s.(holder := Nobody, work := s.work.(phase := DropKey))) && Uninterrupted(actions)
    decreases |s.durable.prefs| - s.work.phase.account
  {
    hide Leads;
    var t := Step(s, DestroyStep(true));
    LeadsByOne(s, DestroyStep(true));
    if s.work.phase.account == |s.durable.prefs| {
      actions := [DestroyStep(true)];
    } else {
      assert t == s.(work := s.work.(phase := Unlink(s.work.phase.account + 1)));
      var rest := UnlinkRun(t);
      LeadsOn(s, [DestroyStep(true)], t, rest, s.(holder := Nobody, work := s.work.(phase := DropKey)));
      actions := [DestroyStep(true)] + rest;
    }
  }

  lemma DropRun(s: State, unmarked: bool) returns (actions: seq<Action>)
    requires WellFormed(s) && s.work.Destroying? && s.work.phase.DropKey? && s.work.next.Finish?
    requires s.work.generation in s.durable.tombs.mem && s.durable.tombs.disk == s.durable.tombs.mem
    ensures Leads(s, actions, s.(durable := Destroyed(s.durable, s.work.generation, unmarked), work := Resting))
    ensures Uninterrupted(actions)
  {
    hide Leads;
    var ok := DestroyStep(true);
    LeadsByOne(s, ok);
    var t := Step(s, ok);
    LeadsByOne(t, ok);
    var u := Step(t, ok);
    LeadsByOne(u, DestroyStep(unmarked));
    LeadsOn(s, [ok], t, [ok], u);
    var v := Step(u, DestroyStep(unmarked));
    LeadsOn(s, [ok] + [ok], u, [DestroyStep(unmarked)], v);
    assert s.durable.tombs.mem + {s.work.generation} == s.durable.tombs.mem;
    assert v == s.(durable := Destroyed(s.durable, s.work.generation, unmarked), work := Resting);
    actions := [ok] + [ok] + [DestroyStep(unmarked)];
  }

  lemma DestroyRun(s: State, generation: nat, unmarked: bool) returns (actions: seq<Action>)
    requires AtRest(s) && s.queue == [DestroyJob(generation)] && !Refers(s.durable, generation)
    ensures Leads(s, actions, s.(durable := Destroyed(s.durable, generation, unmarked), queue := []))
    ensures Uninterrupted(actions)
  {
    hide Leads, Refers;
    var ok := DestroyStep(true);
    LeadsByOne(s, Pop);
    var t := Step(s, Pop);
    assert t == s.(queue := [], work := Destroying(generation, Mark, Finish));
    LeadsByOne(t, ok);
    var u := Step(t, ok);
    LeadsByOne(u, ok);
    var v := Step(u, ok);
    assert v == s.(durable := Remarked(s.durable, generation, true), queue := [], holder := Worker,
        work := Destroying(generation, Unlink(0), Finish));
    LeadsOn(s, [Pop], t, [ok], u);
    LeadsOn(s, [Pop] + [ok], u, [ok], v);
    SameRefs(s.durable, v.durable);
    var unlink := UnlinkRun(v);
    var w := v.(holder := Nobody, work := v.work.(phase := DropKey));
    LeadsOn(s, [Pop] + [ok] + [ok], v, unlink, w);
    var drop := DropRun(w, unmarked);
    var x := w.(durable := Destroyed(w.durable, generation, unmarked), work := Resting);
    LeadsOn(s, [Pop] + [ok] + [ok] + unlink, w, drop, x);
    DestroyedOnce(s.durable, generation, unmarked);
    actions := [Pop] + [ok] + [ok] + unlink + drop;
  }

  lemma DestroyedOnce(d: Durable, generation: nat, unmarked: bool)
    ensures Destroyed(Remarked(d, generation, true), generation, unmarked) == Destroyed(d, generation, unmarked)
  {
    assert d.tombs.mem + {generation} + {generation} == d.tombs.mem + {generation};
  }

  /** Accounts whose archives are in order, one after the other. */
  function Sound(owners: seq<nat>, generations: seq<nat>): Durable
    requires |owners| == |generations|
  {
    var n := |owners|;
    Durable(seq(n, a requires 0 <= a < n =>
        File(Prefs(Some(generations[a]), owners[a]), Prefs(Some(generations[a]), owners[a]))),
            File({}, {}), set g | g in generations, set g | g in generations,
            map g | g in generations :: Place(generations, g))
  }

  function Place(generations: seq<nat>, generation: nat): nat
    requires generation in generations
  {
    if generations[0] == generation then 0 else 1 + Place(generations[1..], generation)
  }

  /** A process on a disk without tombstones, once its clean-up is through. */
  lemma StartRun(d: Durable, owners: seq<nat>) returns (actions: seq<Action>, t: State)
    requires |owners| == |d.prefs| && d.tombs == File({}, {})
    requires forall a :: 0 <= a < |d.prefs| ==> d.prefs[a].mem == d.prefs[a].disk
    ensures Leads(Born(d, owners, true), actions, t) && Uninterrupted(actions)
    ensures AtRest(t) && t.durable == d && t.queue == []
  {
    hide Leads;
    var s := Born(d, owners, true);
    assert s.durable.prefs == d.prefs;
    LeadsByOne(s, Pop);
    var u := Step(s, Pop);
    LeadsByOne(u, CleanupDone);
    t := Step(u, CleanupDone);
    LeadsOn(s, [Pop], u, [CleanupDone], t);
    actions := [Pop] + [CleanupDone];
  }

  /**
   * The user of the first account logs out, the removal of the reference is not committed, and the worker destroys the
   * archive.
   */
  lemma LoggedOutBadly(owners: seq<nat>, generations: seq<nat>, unmarked: bool) returns (actions: seq<Action>, t: State)
    requires 0 < |owners| == |generations| && forall a :: 0 < a < |generations| ==> generations[a] != generations[0]
    ensures Leads(Born(Sound(owners, generations), owners, true), actions, t) && Uninterrupted(actions) && AtRest(t)
    ensures var d, g := Sound(owners, generations), generations[0];
            && t.durable.prefs == d.prefs[0 := File(NOTHING, d.prefs[0].disk)]
            && t.durable.keys == d.keys - {g} == t.durable.dbs
            && t.durable.tombs == File({}, if unmarked then {} else {g})
  {
    hide Leads;
    var d, g := Sound(owners, generations), generations[0];
    var s := Born(d, owners, true);
    var start, u := StartRun(d, owners);
    LogoutRun(u, 0, true, false);
    var v := LoggedOut(u, 0, true, false);
    LeadsOn(s, start, u, LogoutOf(0, true, false), v);
    assert {} + {g} == {g} && u.durable.prefs[0].mem.generation == Some(g);
    assert v.durable.tombs == File({g}, {g}) && v.queue == [DestroyJob(g)]
        && v.durable.prefs == d.prefs[0 := File(NOTHING, d.prefs[0].disk)];
    var destroy := DestroyRun(v, g, unmarked);
    t := v.(durable := Destroyed(v.durable, g, unmarked), queue := []);
    LeadsOn(s, start + LogoutOf(0, true, false), v, destroy, t);
    assert {g} + {g} == {g} && {g} - {g} == {};
    actions := start + LogoutOf(0, true, false) + destroy;
  }

  /**
   * Without a crash so far, the disk names a generation that is neither whole nor retired: the next process starts
   * unsound.
   */
  ghost predicate Strands(actions: seq<Action>, u: State, owners: seq<nat>, generation: nat) {
    Uninterrupted(actions) && Names(u.durable, generation) && generation !in u.durable.keys
        && generation !in u.durable.tombs.disk
    && !DiskIntact(u.durable) && !MemIntact(Born(u.durable, owners, true).durable)
  }

  /**
   * One failed commit is enough: the logout's removal fails, everything after it succeeds, and the process dies.  The
   * disk then names a generation that has no key and no tombstone, so the next process does not start intact.
   */
  lemma FailedRemovalStrandsAccount(owner: nat, generation: nat)
    ensures DiskIntact(Sound([owner], [generation]))
    ensures exists actions, u ::
                && Leads(Born(Sound([owner], [generation]), [owner], true), actions, u)
                && Strands(actions, u, [owner], generation)
  {
    hide Leads;
    var actions, u := LoggedOutBadly([owner], [generation], true);
    assert u.durable.prefs[0].disk.generation == Some(generation);
    assert Names(u.durable, generation);
    hide Born, MemIntact;
    BornIsIntact(u.durable, [owner], true);
    assert Leads(Born(Sound([owner], [generation]), [owner], true), actions, u)
        && Strands(actions, u, [owner], generation);
  }

  /** The disk is intact, and one more logout, of the second account, takes the tombstone it still needs. */
  ghost predicate StrandsLater(before: seq<Action>, t: State, owners: seq<nat>, generation: nat) {
    && Uninterrupted(before) && DiskIntact(t.durable) && WellFormed(t) && 1 < |t.durable.prefs|
    && Leads(t, LogoutOf(1, true, true), LoggedOut(t, 1, true, true))
    && Strands(LogoutOf(1, true, true), LoggedOut(t, 1, true, true), owners, generation)
  }

  /**
   * The second way: the removal fails and so does the last commit of the destruction, which leaves the disk intact.
   * Then the other account logs out, without any failure, and its tombstone commit drops the one on disk.
   */
  lemma LaterLogoutStrandsAccount(owner: nat, generation: nat, other: nat, another: nat)
    requires generation != another
    ensures DiskIntact(Sound([owner, other], [generation, another]))
    ensures exists before, t ::
              && Leads(Born(Sound([owner, other], [generation, another]), [owner, other], true), before, t)
              && StrandsLater(before, t, [owner, other], generation)
  {
    hide Leads;
    var owners, generations := [owner, other], [generation, another];
    var before, t := LoggedOutBadly(owners, generations, false);
    var u := LoggedOut(t, 1, true, true);
    LogoutRun(t, 1, true, true);
    assert t.durable.prefs[0].disk.generation == Some(generation) && u.durable.prefs[0] == t.durable.prefs[0];
    assert Names(u.durable, generation);
    assert u.durable.tombs.disk == {another};
    BornIsIntact(u.durable, owners, true);
    hide Born, MemIntact;
    assert Leads(Born(Sound(owners, generations), owners, true), before, t)
        && StrandsLater(before, t, owners, generation);
  }
}
