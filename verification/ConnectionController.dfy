/**
 * The tunnel controller as a protocol: any threads issue commands and close it, one worker owns the native tunnel,
 * and one coalesced runnable delivers to the listener.  Every step below is one critical section or one native call;
 * native calls return or throw as they please.
 */
module ConnectionController {
  import opened Common

  const MAX_LONG := 0x7fff_ffff_ffff_ffff

  datatype Phase = Disabled | Ready | Broken
  datatype Command = Command(revision: nat, enabled: bool)
  datatype Update<E> = Update(revision: nat, phase: Phase, endpoint: Option<E>)

  // ----- what the lock guards; each function is one critical section, and says which update it drops

  datatype Guarded<E> = Guarded(pending: Option<Command>, delivery: Option<Update<E>>, revision: nat, scheduled: bool,
      closed: bool)

  function Current<E>(g: Guarded<E>, revision: nat): bool { !g.closed && revision == g.revision }

  /** A closed controller answers -1; an exhausted one throws. */
  function SetEnabledLocked<E>(g: Guarded<E>, enabled: bool): (Guarded<E>, Result<int>, Option<Update<E>>) {
    if g.closed then (g, Ok(-1), None)
    else if g.revision >= MAX_LONG then (g, Failed, None)
    else
      var next := g.revision + 1;
      (g.(revision := next, pending := Some(Command(next, enabled)), delivery := None), Ok(next), g.delivery)
  }

  function CloseLocked<E>(g: Guarded<E>): (Guarded<E>, Option<Update<E>>) {
    (g.(closed := true, pending := None, delivery := None), g.delivery)
  }

  /** The flag says whether a runnable must be queued. */
  function PostLocked<E>(g: Guarded<E>, update: Update<E>): (Guarded<E>, bool, Option<Update<E>>) {
    if !Current(g, update.revision) then (g, false, Some(update))
    else (g.(delivery := Some(update), scheduled := true), !g.scheduled, g.delivery)
  }

  /** The first update goes to the listener, the second is dropped unseen. */
  function DeliverLocked<E>(g: Guarded<E>): (Guarded<E>, Option<Update<E>>, Option<Update<E>>) {
    var next := g.(delivery := None, scheduled := false);
    if g.delivery.Some? && Current(g, g.delivery.value.revision) then (next, g.delivery, None)
    else (next, None, g.delivery)
  }

  // ----- the program around those critical sections

  /** An update owns its endpoint buffer and wipes it when closed. */
  class Message {
    const update: Update<array<Byte>>

    constructor (update: Update<array<Byte>>)
      ensures this.update == update
    {
      this.update := update;
    }

    method Close()
      modifies if update.endpoint.Some? then {update.endpoint.value} else {}
      ensures update.endpoint.Some? ==> AllZero(update.endpoint.value)
    {
      if update.endpoint.Some? {
        Fill(update.endpoint.value);
      }
    }
  }

  ghost predicate AllZero(buffer: array<Byte>)
    reads buffer
  {
    forall i :: 0 <= i < buffer.Length ==> buffer[i] == 0
  }

  method Fill(buffer: array<Byte>)
    modifies buffer
    ensures AllZero(buffer)
  {
    for i := 0 to buffer.Length
      invariant forall j :: 0 <= j < i ==> buffer[j] == 0
    {
      buffer[i] := 0;
    }
  }

  /** The buffers an update refers to. */
  function Buffers(update: Option<Update<array<Byte>>>): set<array<Byte>> {
    if update.Some? && update.value.endpoint.Some? then {update.value.endpoint.value} else {}
  }

  class Controller {
    var pending: Option<Command>
    var delivery: Option<Message>
    var revision: nat
    var scheduled: bool
    var closed: bool

    ghost function Locked(): Guarded<array<Byte>>
      reads this
    {
      Guarded(pending, if delivery.Some? then Some(delivery.value.update) else None, revision, scheduled, closed)
    }

    constructor ()
      ensures Locked() == Guarded(None, None, 0, false, false)
    {
      pending, delivery, revision, scheduled, closed := None, None, 0, false, false;
    }

    method SetEnabled(enabled: bool) returns (r: Result<int>)
      modifies this, Buffers(Locked().delivery)
      ensures (Locked(), r) == (SetEnabledLocked(old(Locked()), enabled).0, SetEnabledLocked(old(Locked()), enabled).1)
      ensures forall b :: b in Buffers(SetEnabledLocked(old(Locked()), enabled).2) ==> AllZero(b)
      ensures r.Failed? <==> !old(closed) && old(revision) >= MAX_LONG
      ensures r.Ok? ==> r.value == if old(closed) then -1 else old(revision) + 1
      ensures r.Ok? && !old(closed) ==>
                && revision == r.value && pending == Some(Command(revision, enabled)) && delivery.None?
                && closed == old(closed) && scheduled == old(scheduled)
                && forall b :: b in Buffers(old(Locked()).delivery) ==> AllZero(b)
      ensures r.Failed? || old(closed) ==> Locked() == old(Locked())
    {
      if closed {
        return Ok(-1);
      }
      if revision >= MAX_LONG {
        return Failed;
      }
      revision := revision + 1;
      pending := Some(Command(revision, enabled));
      if delivery.Some? {
        delivery.value.Close();
        delivery := None;
      }
      return Ok(revision);
    }

    method Close()
      modifies this, Buffers(Locked().delivery)
      ensures Locked() == CloseLocked(old(Locked())).0
      ensures forall b :: b in Buffers(CloseLocked(old(Locked())).1) ==> AllZero(b)
      ensures closed && pending.None? && delivery.None? && revision == old(revision) && scheduled == old(scheduled)
      ensures forall b :: b in Buffers(old(Locked()).delivery) ==> AllZero(b)
    {
      closed, pending := true, None;
      if delivery.Some? {
        delivery.value.Close();
        delivery := None;
      }
    }

    method IsCurrent(revision: nat) returns (current: bool)
      ensures current == Current(Locked(), revision)
    {
      return !closed && revision == this.revision;
    }

    /** `enqueue` asks the caller to hand a runnable to the dispatcher. */
    method Post(message: Message) returns (enqueue: bool)
      modifies this, Buffers(Locked().delivery), Buffers(Some(message.update))
      ensures (Locked(), enqueue) == (PostLocked(old(Locked()), message.update).0,
                  PostLocked(old(Locked()), message.update).1)
      ensures forall b :: b in Buffers(PostLocked(old(Locked()), message.update).2) ==> AllZero(b)
      ensures closed == old(closed) && revision == old(revision) && pending == old(pending)
      ensures closed || message.update.revision != revision ==>
                && delivery == old(delivery) && scheduled == old(scheduled) && !enqueue
                && forall b :: b in Buffers(Some(message.update)) ==> AllZero(b)
      ensures !closed && message.update.revision == revision ==>
                delivery == Some(message) && scheduled && enqueue == !old(scheduled)
      ensures Current(old(Locked()), message.update.revision)
              && Buffers(old(Locked()).delivery) !! Buffers(Some(message.update)) ==>
                forall b :: b in Buffers(Some(message.update)) ==> b[..] == old(b[..])
    {
      if closed || message.update.revision != revision {
        message.Close();
        return false;
      }
      if delivery.Some? {
        delivery.value.Close();
      }
      delivery, enqueue, scheduled := Some(message), !scheduled, true;
    }

    /** `shown` is what the listener is called with; its buffer is wiped before the lock is released. */
    method Deliver() returns (shown: Option<Update<array<Byte>>>)
      modifies this, Buffers(Locked().delivery)
      ensures (Locked(), shown) == (DeliverLocked(old(Locked())).0, DeliverLocked(old(Locked())).1)
      ensures forall b :: b in Buffers(old(Locked()).delivery) ==> AllZero(b)
      ensures delivery.None? && !scheduled && closed == old(closed) && revision == old(revision)
      ensures pending == old(pending)
      ensures if old(delivery).Some? && !closed && old(delivery).value.update.revision == revision
              then shown == Some(old(delivery).value.update) else shown.None?
    {
      var taken := delivery;
      delivery, scheduled := None, false;
      if taken.None? {
        return None;
      }
      shown := None;
      if !closed && taken.value.update.revision == revision {
        shown := Some(taken.value.update);
      }
      taken.value.Close();
    }
  }

  // ----- the whole protocol

  /** What a native call did: threw, or returned a number. */
  datatype Outcome = Threw | Returned(value: int)

  /**
   * A native call that was made.  A look at a tunnel records the seven numbers of its status, unless the call threw or
   * refused, and the endpoint the start had left in the buffer.
   */
  datatype EngineCall =
    | Started(result: Outcome) | Stopped(handle: int, result: Outcome)
    | Looked(handle: int, status: Option<seq<int>>, token: Bytes)

  /** The numbers a tunnel in working order reports. */
  predicate InOrder(status: seq<int>) {
    |status| == 7 && status[0] == 1 && status[1] == 1 && 0 <= status[2] <= 128 && 0 <= status[5] <= 65535
        && 0 <= status[6] <= 4
  }

  /** A look that found the tunnel in working order behind a valid endpoint. */
  predicate Sound(call: EngineCall) {
    call.Looked? && call.status.Some? && InOrder(call.status.value) && ValidToken(call.token)
  }

  /** Where the worker is: about to take the lock, or about to make a native call. */
  datatype Pc =
    | Idle | Stopping | Checking | Starting | Rechecking | Inspecting | Recovering
    | Posting(update: Update<nat>) | Dispatching | Wiping | Leaving | Terminating | Exited

  /** Endpoint buffers are numbered in this part; `dirty` are the ones that may hold a token. */
  datatype State = State(
    lock: Guarded<nat>,
    // the dispatcher's queue, and the listener call in progress, which holds the lock
    runnables: nat, listening: Option<Update<nat>>,
    // the worker's locals
    pc: Pc, handle: int, command: Command, endpoint: Option<nat>,
    buffers: set<nat>, dirty: set<nat>,
    // histories: native calls, (revision, latest revision) at each acceptance, last revision posted
    calls: seq<EngineCall>, accepted: seq<(nat, nat)>, posted: nat)

  function Initial(): State {
    State(Guarded(None, None, 0, false, false), 0, None, Idle, 0, Command(0, false), None, {}, {}, [], [], 0)
  }

  datatype Action =
    // any thread
    | SetEnabled(enabled: bool) | Close
    // the dispatcher's thread
    | DeliverBegin | DeliverEnd
    // the worker
    | Take | Interrupt | StopOld(stop: Outcome) | Check
    | StartTunnel(buffer: nat, written: bool, start: Outcome) | Recheck
    | Inspect(status: Option<seq<int>>, token: Bytes) | Recover(stop: Outcome)
    | Post | Dispatch(queued: bool) | Wipe | Leave(stop: Outcome) | Terminate

  /** The steps of other threads and the dispatcher, and the native calls of the worker. */
  predicate OfOthers(a: Action) { a.SetEnabled? || a.Close? || a.DeliverBegin? || a.DeliverEnd? }

  predicate OfNative(a: Action) { a.StopOld? || a.StartTunnel? || a.Inspect? || a.Recover? || a.Leave? }

  predicate Succeeded(stop: Outcome) { stop.Returned? && stop.value >= 0 }

  /** `Update.close`: the endpoint buffer is zeroed. */
  function Wiped(s: State, update: Option<Update<nat>>): State {
    if update.Some? && update.value.endpoint.Some? then s.(dirty := s.dirty - {update.value.endpoint.value}) else s
  }

  function Closed(s: State): State {
    var (lock, dropped) := CloseLocked(s.lock);
    Wiped(s, dropped).(lock := lock)
  }

  /** The lock is free unless the listener is being called. */
  predicate Enabled(s: State, a: Action) {
    match a
    case SetEnabled(_) => s.listening.None?
    case Close => s.listening.None?
    case DeliverBegin => s.listening.None? && s.runnables > 0
    case DeliverEnd => s.listening.Some?
    case Take => s.listening.None? && s.pc.Idle? && (s.lock.closed || s.lock.pending.Some?)
    case Interrupt => s.listening.None? && s.pc.Idle? && s.lock.pending.None?
    case StopOld(_) => s.pc.Stopping?
    case Check => s.listening.None? && s.pc.Checking?
    case StartTunnel(buffer, _, _) => s.pc.Starting? && buffer !in s.buffers
    case Recheck => s.listening.None? && s.pc.Rechecking?
    case Inspect(_, _) => s.pc.Inspecting?
    case Recover(_) => s.pc.Recovering?
    case Post => s.listening.None? && s.pc.Posting?
    case Dispatch(queued) => s.pc.Dispatching? && (queued || s.listening.None?)
    case Wipe => s.pc.Wiping?
    case Leave(_) => s.pc.Leaving?
    case Terminate => s.listening.None? && s.pc.Terminating?
  }

  function AfterSetEnabled(s: State, enabled: bool): State {
    var (lock, _, dropped) := SetEnabledLocked(s.lock, enabled);
    Wiped(s, dropped).(lock := lock)
  }

  function AfterDeliverBegin(s: State): State
    requires s.runnables > 0
  {
    var (lock, shown, dropped) := DeliverLocked(s.lock);
    Wiped(s, dropped).(lock := lock, runnables := s.runnables - 1, listening := shown,
                       accepted := if shown.Some? then s.accepted + [(shown.value.revision, s.lock.revision)]
                           else s.accepted)
  }

  function AfterTake(s: State): State
    requires s.lock.closed || s.lock.pending.Some?
  {
    if s.lock.closed then s.(pc := Leaving)
    else s.(command := s.lock.pending.value, lock := s.lock.(pending := None), endpoint := None,
            pc := if s.handle != 0 then Stopping else Checking)
  }

  function AfterStopOld(s: State, stop: Outcome): State {
    var called := s.(calls := s.calls + [Stopped(s.handle, stop)]);
    if Succeeded(stop) then called.(handle := 0, pc := Checking) else called.(pc := Recovering)
  }

  function AfterCheck(s: State): State {
    if !Current(s.lock, s.command.revision) then s.(pc := Wiping)
    else if !s.command.enabled then s.(pc := Posting(Update(s.command.revision, Disabled, None)))
    else s.(pc := Starting)
  }

  function AfterStart(s: State, buffer: nat, written: bool, start: Outcome): State {
    var called := s.(calls := s.calls + [Started(start)], buffers := s.buffers + {buffer}, endpoint := Some(buffer),
                     dirty := if written then s.dirty + {buffer} else s.dirty);
    if start.Returned? && start.value > 0 then called.(handle := start.value, pc := Rechecking)
    else called.(handle := 0, pc := Recovering)
  }

  function AfterInspect(s: State, status: Option<seq<int>>, token: Bytes): State {
    var look := Looked(s.handle, status, token);
    s.(calls := s.calls + [look],
       pc := if Sound(look) then Posting(Update(s.command.revision, Ready, s.endpoint)) else Recovering)
  }

  function AfterRecover(s: State, stop: Outcome): State {
    var post := Posting(Update(s.command.revision, Broken, None));
    if s.handle == 0 then s.(pc := post)
    else s.(calls := s.calls + [Stopped(s.handle, stop)], handle := if Succeeded(stop) then 0 else s.handle, pc := post)
  }

  /** A ready update takes the endpoint over from the worker, whether it is delivered or dropped. */
  function AfterPost(s: State): State
    requires s.pc.Posting?
  {
    var update := s.pc.update;
    var (lock, enqueue, dropped) := PostLocked(s.lock, update);
    Wiped(s, dropped).(lock := lock, endpoint := if update.phase.Ready? then None else s.endpoint,
                       posted := update.revision, pc := if enqueue then Dispatching else Wiping)
  }

  function AfterDispatch(s: State, queued: bool): State {
    if queued then s.(runnables := s.runnables + 1, pc := Wiping) else Closed(s).(pc := Wiping)
  }

  function AfterWipe(s: State): State {
    s.(dirty := if s.endpoint.Some? then s.dirty - {s.endpoint.value} else s.dirty, endpoint := None, pc := Idle)
  }

  function AfterLeave(s: State, stop: Outcome): State {
    if s.handle == 0 then s.(pc := Terminating)
    else s.(calls := s.calls + [Stopped(s.handle, stop)], pc := Terminating)
  }

  function Step(s: State, a: Action): State
    requires Enabled(s, a)
  {
    match a
    case SetEnabled(enabled) => AfterSetEnabled(s, enabled)
    case Close => Closed(s)
    case DeliverBegin => AfterDeliverBegin(s)
    case DeliverEnd => Wiped(s, s.listening).(listening := None)
    case Take => AfterTake(s)
    case Interrupt => s.(lock := s.lock.(closed := true), pc := Leaving)
    case StopOld(stop) => AfterStopOld(s, stop)
    case Check => AfterCheck(s)
    case StartTunnel(buffer, written, start) => AfterStart(s, buffer, written, start)
    case Recheck => s.(pc := if Current(s.lock, s.command.revision) then Inspecting else Wiping)
    case Inspect(status, token) => AfterInspect(s, status, token)
    case Recover(stop) => AfterRecover(s, stop)
    case Post => AfterPost(s)
    case Dispatch(queued) => AfterDispatch(s, queued)
    case Wipe => AfterWipe(s)
    case Leave(stop) => AfterLeave(s, stop)
    case Terminate => Closed(s).(pc := Exited)
  }

  // ----- one native tunnel

  /** Handles that were returned by a start and whose stop has not yet returned a non-negative value. */
  function Live(calls: seq<EngineCall>): set<int> {
    if calls == [] then {} else LiveAfterCall(Live(calls[..|calls| - 1]), calls[|calls| - 1])
  }

  function LiveAfterCall(live: set<int>, call: EngineCall): set<int> {
    if Opened(call) then live + {call.result.value}
    else if call.Stopped? && Succeeded(call.result) then live - {call.handle}
    else live
  }

  predicate Opened(call: EngineCall) { call.Started? && call.result.Returned? && call.result.value > 0 }

  /** The last call leaves this tunnel open. */
  predicate Holding(call: EngineCall) { Opened(call) || call.Looked? }

  function HeldBy(call: EngineCall): int
    requires Holding(call)
  {
    if call.Looked? then call.handle else call.result.value
  }

  /**
   * A start is only ever called with nothing live; a tunnel is looked at only right after its start, and the call
   * that follows a successful start or a look is for the same tunnel.
   */
  ghost predicate SingleTunnel(calls: seq<EngineCall>) {
    && (forall i :: 0 <= i < |calls| ==> StartedAlone(calls, i))
    && (forall i :: 0 <= i < |calls| - 1 ==> StopFollows(calls, i))
  }

  predicate StartedAlone(calls: seq<EngineCall>, i: nat)
    requires i < |calls|
  {
    && (calls[i].Started? ==> Live(calls[..i]) == {})
    && (calls[i].Looked? ==> i > 0 && Opened(calls[i - 1]) && calls[i].handle == calls[i - 1].result.value)
  }

  predicate StopFollows(calls: seq<EngineCall>, i: nat)
    requires i + 1 < |calls|
  {
    Holding(calls[i]) ==>
      && (calls[i + 1].Stopped? || (calls[i + 1].Looked? && Opened(calls[i])))
      && calls[i + 1].handle == HeldBy(calls[i])
  }

  ghost predicate TunnelInv(s: State) {
    && SingleTunnel(s.calls)
    && (s.pc.Terminating? || s.pc.Exited? || Live(s.calls) == if s.handle == 0 then {} else {s.handle})
    && (s.pc.Checking? || s.pc.Starting? ==> s.handle == 0)
    && (s.pc.Stopping? ==> s.handle != 0)
    && (s.pc.Rechecking? || s.pc.Inspecting? ==> s.calls != [] && Opened(s.calls[|s.calls| - 1]))
    && (s.calls != [] && Holding(s.calls[|s.calls| - 1]) ==>
         s.handle == HeldBy(s.calls[|s.calls| - 1]) && s.handle != 0 && !s.pc.Terminating? && !s.pc.Exited?)
  }

  lemma LiveAfter(calls: seq<EngineCall>, call: EngineCall)
    ensures Live(calls + [call]) == LiveAfterCall(Live(calls), call)
  {
    assert (calls + [call])[..|calls|] == calls;
  }

  lemma SameCallsBefore(calls: seq<EngineCall>, call: EngineCall, i: nat)
    requires i < |calls|
    ensures StartedAlone(calls + [call], i) == StartedAlone(calls, i)
    ensures i + 1 < |calls| ==> StopFollows(calls + [call], i) == StopFollows(calls, i)
  {
    assert (calls + [call])[..i] == calls[..i];
    hide Live;
  }

  /** What may be called next. */
  ghost predicate MayFollow(calls: seq<EngineCall>, call: EngineCall) {
    && (call.Started? ==> Live(calls) == {})
    && (call.Looked? ==> calls != [] && Opened(calls[|calls| - 1]))
    && (calls != [] && Holding(calls[|calls| - 1]) ==> !call.Started? && call.handle == HeldBy(calls[|calls| - 1]))
  }

  lemma NewCall(calls: seq<EngineCall>, call: EngineCall)
    requires MayFollow(calls, call)
    ensures StartedAlone(calls + [call], |calls|) && (calls != [] ==> StopFollows(calls + [call], |calls| - 1))
  {
    assert (calls + [call])[..|calls|] == calls;
    hide Live;
  }

  lemma SingleAfter(calls: seq<EngineCall>, call: EngineCall)
    requires SingleTunnel(calls) && MayFollow(calls, call)
    ensures SingleTunnel(calls + [call])
  {
    hide StartedAlone, StopFollows, Live, Opened, MayFollow;
    NewCall(calls, call);
    var more := calls + [call];
    forall i | 0 <= i < |more| ensures StartedAlone(more, i) {
      if i < |calls| {
        SameCallsBefore(calls, call, i);
      }
    }
    forall i | 0 <= i < |more| - 1 ensures StopFollows(more, i) {
      if i + 1 < |calls| {
        SameCallsBefore(calls, call, i);
      }
    }
  }

  lemma TunnelStep(s: State, a: Action)
    requires TunnelInv(s) && Enabled(s, a)
    ensures TunnelInv(Step(s, a))
  {
    hide SingleTunnel, Live, Sound;
    match a {
      case StopOld(stop) => LiveAfter(s.calls, Stopped(s.handle, stop)); SingleAfter(s.calls, Stopped(s.handle, stop));
      case Recover(stop) => LiveAfter(s.calls, Stopped(s.handle, stop));
          if s.handle != 0 { SingleAfter(s.calls, Stopped(s.handle, stop)); }
      case Leave(stop) => LiveAfter(s.calls, Stopped(s.handle, stop));
          if s.handle != 0 { SingleAfter(s.calls, Stopped(s.handle, stop)); }
      case Inspect(status, token) =>
        LiveAfter(s.calls, Looked(s.handle, status, token));
        SingleAfter(s.calls, Looked(s.handle, status, token));
      case StartTunnel(_, _, start) =>
        LiveAfter(s.calls, Started(start));
        SingleAfter(s.calls, Started(start));
      case _ =>
    }
  }

  // ----- the worker's turn on one command

  /** The native calls of one turn, from the handle it begins with to the one it is left with. */
  predicate Script(turn: seq<EngineCall>, handle: int, enabled: bool, next: int) {
    if handle == 0 then StartScript(turn, enabled, next)
    else
      && turn != [] && turn[0].Stopped? && turn[0].handle == handle
      && if Succeeded(turn[0].result) then StartScript(turn[1..], enabled, next)
         else StopScript(turn[1..], handle, next)
  }

  /** With nothing left from before: no call, or a start, after which only its own tunnel is looked at and stopped. */
  predicate StartScript(turn: seq<EngineCall>, enabled: bool, next: int) {
    if turn == [] then next == 0
    else
      && enabled && turn[0].Started?
      && if Opened(turn[0]) then LookScript(turn[1..], turn[0].result.value, next) else |turn| == 1 && next == 0
  }

  /** With a tunnel just opened: no call, or a look, and a stop exactly if what was seen is not sound. */
  predicate LookScript(turn: seq<EngineCall>, handle: int, next: int) {
    if turn == [] then next == handle
    else
      && turn[0].Looked? && turn[0].handle == handle
      && if Sound(turn[0]) then |turn| == 1 && next == handle else StopScript(turn[1..], handle, next)
  }

  predicate StopScript(turn: seq<EngineCall>, handle: int, next: int) {
    |turn| == 1 && turn[0].Stopped? && turn[0].handle == handle && next == if Succeeded(turn[0].result) then 0
        else handle
  }

  /** The calls after the first stop. */
  function After(turn: seq<EngineCall>, handle: int): seq<EngineCall> {
    if handle == 0 || turn == [] then turn else turn[1..]
  }

  /**
   * What the turn must have done to answer with this phase: started nothing, found its tunnel sound, or failed at
   * something.
   */
  predicate Explains(turn: seq<EngineCall>, handle: int, enabled: bool, phase: Phase) {
    var rest := After(turn, handle);
    match phase
    case Disabled => !enabled && rest == []
    case Ready => rest != [] && Sound(rest[|rest| - 1])
    case Broken => rest != [] && (rest[|rest| - 1].Stopped? || (rest[|rest| - 1].Started? && !Opened(rest[|rest| - 1])))
  }

  /** A turn whose old tunnel is gone and which has started nothing. */
  predicate Cleared(turn: seq<EngineCall>, handle: int) {
    After(turn, handle) == [] && (handle != 0 ==> StopScript(turn, handle, 0))
  }

  /** A turn whose last call was the start. */
  predicate JustStarted(turn: seq<EngineCall>, handle: int, enabled: bool, next: int) {
    && turn != [] && turn[|turn| - 1].Started? && enabled && Cleared(turn[..|turn| - 1], handle)
    && next == if Opened(turn[|turn| - 1]) then turn[|turn| - 1].result.value else 0
  }

  lemma ClearedScript(turn: seq<EngineCall>, handle: int, enabled: bool)
    requires Cleared(turn, handle)
    ensures Script(turn, handle, enabled, 0) && (!enabled ==> Explains(turn, handle, enabled, Disabled))
  {
  }

  /** A turn whose last call was the look at the tunnel it has started. */
  predicate JustLooked(turn: seq<EngineCall>, handle: int, enabled: bool, next: int) {
    && turn != [] && turn[|turn| - 1].Looked? && turn[|turn| - 1].handle == next != 0
    && JustStarted(turn[..|turn| - 1], handle, enabled, next)
  }

  lemma StartedScript(turn: seq<EngineCall>, handle: int, enabled: bool, next: int)
    requires JustStarted(turn, handle, enabled, next)
    ensures Script(turn, handle, enabled, next) && (next == 0 ==> Explains(turn, handle, enabled, Broken))
  {
    hide Succeeded, Sound;
    if handle != 0 {
      assert turn[..|turn| - 1] == [turn[0]] && turn[1..] == [turn[|turn| - 1]];
    } else {
      assert turn == [turn[0]];
    }
  }

  /** A turn that has looked consists of the stop of what was left, if anything was, the start and the look. */
  lemma LookedIs(turn: seq<EngineCall>, handle: int, enabled: bool, next: int)
    requires JustLooked(turn, handle, enabled, next)
    ensures enabled && next != 0
    ensures var rest := After(turn, handle);
              |rest| == 2 && Opened(rest[0]) && rest[0].result.value == next && rest[1] == turn[|turn| - 1]
    ensures handle != 0 ==> |turn| == 3 && StopScript(turn[..1], handle, 0)
    ensures handle == 0 ==> |turn| == 2
  {
    hide Succeeded, Sound;
    var started := turn[..|turn| - 1];
    if handle != 0 {
      assert started[..|started| - 1] == [turn[0]];
      assert turn[..1] == [turn[0]];
    } else {
      assert started == [turn[0]];
    }
  }

  lemma LookedScript(turn: seq<EngineCall>, handle: int, enabled: bool, next: int)
    requires JustLooked(turn, handle, enabled, next) && Sound(turn[|turn| - 1])
    ensures Script(turn, handle, enabled, next) && Explains(turn, handle, enabled, Ready)
  {
    LookedIs(turn, handle, enabled, next);
    hide Succeeded, Sound, JustLooked, JustStarted;
  }

  lemma StoppedScript(turn: seq<EngineCall>, handle: int, enabled: bool, now: int, call: EngineCall, next: int)
    requires now != 0 && StopScript([call], now, next)
    requires
               || (JustLooked(turn, handle, enabled, now) && !Sound(turn[|turn| - 1]))
               || (handle != 0 && now == handle && StopScript(turn, handle, handle))
    ensures Script(turn + [call], handle, enabled, next) && Explains(turn + [call], handle, enabled, Broken)
  {
    hide Succeeded, Sound, JustStarted;
    if JustLooked(turn, handle, enabled, now) && !Sound(turn[|turn| - 1]) {
      LookedIs(turn, handle, enabled, now);
      var rest := After(turn, handle);
      assert After(turn + [call], handle) == rest + [call];
      assert (rest + [call])[1..] == [rest[1], call] && (rest + [call])[1..][1..] == [call];
    } else {
      assert turn == [turn[0]] && (turn + [call])[1..] == [call];
    }
  }

  /**
   * What a turn and its answer say of each other: ready exactly after a sound look at the tunnel that was opened, which
   * stays; a tunnel that was opened has been looked at; and one not found sound was stopped.
   */
  lemma ReadyExactly(turn: seq<EngineCall>, handle: int, enabled: bool, next: int, phase: Phase)
    requires Script(turn, handle, enabled, next) && Explains(turn, handle, enabled, phase)
    ensures phase.Ready? <==> turn != [] && Sound(turn[|turn| - 1])
    ensures phase.Ready? ==> next == turn[|turn| - 1].handle
    ensures forall k :: 0 <= k < |turn| && Opened(turn[k]) ==> k + 1 < |turn| && turn[k + 1].Looked?
    ensures forall k :: 0 <= k < |turn| && turn[k].Looked? && !Sound(turn[k]) ==>
              k + 2 == |turn| && turn[k + 1].Stopped? && turn[k + 1].handle == turn[k].handle && phase.Broken?
  {
    hide Succeeded, InOrder, ValidToken;
    if handle != 0 {
      var rest := turn[1..];
      assert forall k :: 1 <= k < |turn| ==> turn[k] == rest[k - 1];
    }
  }

  /** The machine's worker on the way through its turn. */
  ghost predicate Turning(s: State, before: seq<EngineCall>, handle: int) {
    && before <= s.calls
    && var turn, enabled := s.calls[|before|..], s.command.enabled;
       match s.pc
       case Stopping => turn == [] && s.handle == handle != 0
       case Checking => Cleared(turn, handle) && s.handle == 0
       case Starting => Cleared(turn, handle) && s.handle == 0 && enabled
       case Rechecking => JustStarted(turn, handle, enabled, s.handle) && s.handle != 0
       case Inspecting => JustStarted(turn, handle, enabled, s.handle) && s.handle != 0
       case Recovering =>
           (JustStarted(turn, handle, enabled, 0) && s.handle == 0)
           || (JustLooked(turn, handle, enabled, s.handle) && !Sound(turn[|turn| - 1]))
           || (handle != 0 && s.handle == handle && StopScript(turn, handle, handle))
       case Posting(update) => Script(turn, handle, enabled, s.handle) && Explains(turn, handle, enabled, update.phase)
       case Dispatching => Script(turn, handle, enabled, s.handle)
       case Wiping => Script(turn, handle, enabled, s.handle)
       case Idle => Script(turn, handle, enabled, s.handle)
       case _ => true
  }

  lemma MoreCalls(before: seq<EngineCall>, calls: seq<EngineCall>, call: EngineCall)
    requires before <= calls
    ensures before <= calls + [call] && (calls + [call])[|before|..] == calls[|before|..] + [call]
    ensures (calls[|before|..] + [call])[..|calls| - |before|] == calls[|before|..]
  {
  }

  lemma TurningStopOld(s: State, stop: Outcome, before: seq<EngineCall>, handle: int)
    requires Turning(s, before, handle) && Enabled(s, StopOld(stop))
    ensures Turning(Step(s, StopOld(stop)), before, handle)
  {
    MoreCalls(before, s.calls, Stopped(s.handle, stop));
    assert s.calls[|before|..] + [Stopped(s.handle, stop)] == [Stopped(s.handle, stop)];
  }

  lemma TurningStart(s: State, buffer: nat, written: bool, start: Outcome, before: seq<EngineCall>, handle: int)
    requires Turning(s, before, handle) && Enabled(s, StartTunnel(buffer, written, start))
    ensures Turning(Step(s, StartTunnel(buffer, written, start)), before, handle)
  {
    hide Cleared;
    MoreCalls(before, s.calls, Started(start));
  }

  lemma TurningInspect(s: State, status: Option<seq<int>>, token: Bytes, before: seq<EngineCall>, handle: int)
    requires Turning(s, before, handle) && Enabled(s, Inspect(status, token))
    ensures Turning(Step(s, Inspect(status, token)), before, handle)
  {
    hide Script, Explains, JustStarted, Sound;
    var look := Looked(s.handle, status, token);
    var turn := s.calls[|before|..];
    MoreCalls(before, s.calls, look);
    assert JustLooked(turn + [look], handle, s.command.enabled, s.handle);
    if Sound(look) {
      LookedScript(turn + [look], handle, s.command.enabled, s.handle);
    }
  }

  lemma TurningRecover(s: State, stop: Outcome, before: seq<EngineCall>, handle: int)
    requires Turning(s, before, handle) && Enabled(s, Recover(stop))
    ensures Turning(Step(s, Recover(stop)), before, handle)
  {
    hide Script, Explains, JustStarted, Sound;
    var turn := s.calls[|before|..];
    if s.handle == 0 {
      StartedScript(turn, handle, s.command.enabled, 0);
    } else {
      var call := Stopped(s.handle, stop);
      MoreCalls(before, s.calls, call);
      StoppedScript(turn, handle, s.command.enabled, s.handle, call, if Succeeded(stop) then 0 else s.handle);
    }
  }

  lemma TurningRest(s: State, a: Action, before: seq<EngineCall>, handle: int)
    requires Turning(s, before, handle) && Enabled(s, a) && !a.Take? && !a.Interrupt? && !a.StopOld? && !a.StartTunnel?
    requires !a.Recover? && !a.Inspect?
    ensures Turning(Step(s, a), before, handle)
  {
    hide CloseLocked, PostLocked, DeliverLocked, SetEnabledLocked, Script, Explains, JustStarted, Cleared, StopScript;
    hide Succeeded, Sound;
    var turn := s.calls[|before|..];
    if s.pc.Checking? {
      ClearedScript(turn, handle, s.command.enabled);
    } else if s.pc.Rechecking? {
      StartedScript(turn, handle, s.command.enabled, s.handle);
    }
  }

  /** A step within a turn: what others do does not touch it, and the worker's step continues its script. */
  lemma TurningStep(s: State, a: Action, before: seq<EngineCall>, handle: int)
    requires Turning(s, before, handle) && Enabled(s, a) && !a.Take? && !a.Interrupt?
    ensures Turning(Step(s, a), before, handle)
  {
    hide *;
    match a {
      case StopOld(stop) => TurningStopOld(s, stop, before, handle);
      case StartTunnel(buffer, written, start) => TurningStart(s, buffer, written, start, before, handle);
      case Inspect(status, token) => TurningInspect(s, status, token, before, handle);
      case Recover(stop) => TurningRecover(s, stop, before, handle);
      case _ => TurningRest(s, a, before, handle);
    }
  }

  /** In every run the native calls of a turn follow the script, and its answer is explained by them. */
  lemma {:induction false} TurnsFollowScript(states: seq<State>, actions: seq<Action>, i: nat, j: nat)
    requires Run(states, actions) && i < j < |states| && actions[i].Take? && !states[i].lock.closed
    requires forall k :: i < k < j ==> !actions[k].Take? && !actions[k].Interrupt?
    ensures Turning(states[j], states[i].calls, states[i].handle)
    decreases j
  {
    if j == i + 1 {
      assert states[i].calls[|states[i].calls|..] == [];
      hide PostLocked, CloseLocked;
    } else {
      hide Step, Enabled, Turning;
      TurnsFollowScript(states, actions, i, j - 1);
      TurningStep(states[j - 1], actions[j - 1], states[i].calls, states[i].handle);
    }
  }

  /**
   * The native tunnel library: every call may throw or return anything, and a start may write the buffer even if it
   * fails.
   */
  class Engine {
    ghost var calls: seq<EngineCall>

    constructor ()
      ensures calls == []
    {
      calls := [];
    }

    method Start(endpoint: array<Byte>) returns (r: Outcome)
      modifies this, endpoint
      ensures calls == old(calls) + [Started(r)]
    {
      for i := 0 to endpoint.Length
        invariant calls == old(calls)
      {
        endpoint[i] := *;
      }
      r := *;
      calls := calls + [Started(r)];
    }

    /** A refusal, and a call that throws, leave nothing to be seen. */
    method Status(handle: int, status: array<int>, endpoint: array<Byte>) returns (ok: bool)
      modifies this, status
      ensures calls == old(calls) + [Looked(handle, if ok then Some(status[..]) else None, endpoint[..])]
    {
      for i := 0 to status.Length
        invariant calls == old(calls)
      {
        status[i] := *;
      }
      ok := *;
      calls := calls + [Looked(handle, if ok then Some(status[..]) else None, endpoint[..])];
    }

    method Stop(handle: int) returns (r: Outcome)
      modifies this
      ensures calls == old(calls) + [Stopped(handle, r)]
    {
      r := *;
      calls := calls + [Stopped(handle, r)];
    }
  }

  class NativeWorker {
    const controller: Controller
    const engine: Engine
    var handle: int

    /** Exactly this worker's handle is live. */
    ghost predicate Valid()
      reads this, engine
    {
      && SingleTunnel(engine.calls) && Live(engine.calls) == (if handle == 0 then {} else {handle})
      && (engine.calls != [] && Holding(engine.calls[|engine.calls| - 1]) ==>
           handle == HeldBy(engine.calls[|engine.calls| - 1]) && handle != 0)
    }

    constructor (controller: Controller, engine: Engine)
      requires engine.calls == []
      ensures Valid() && this.controller == controller && this.engine == engine && handle == 0
    {
      this.controller, this.engine, handle := controller, engine, 0;
    }

    /** Any number of calls of other threads between two steps of this one: a held update stays or is wiped. */
    method OthersMove()
      modifies controller, Buffers(controller.Locked().delivery)
      ensures
                || Gone(old(controller.Locked()).delivery)
                || controller.Locked().delivery == old(controller.Locked()).delivery
      ensures controller.Locked().delivery == old(controller.Locked()).delivery || controller.Locked().delivery.None?
      ensures controller.revision >= old(controller.revision) && (old(controller.closed) ==> controller.closed)
    {
      ghost var held := controller.Locked().delivery;
      var moves := *;
      while moves > 0
        invariant Gone(held) || controller.Locked().delivery == held
        invariant controller.Locked().delivery == held || controller.Locked().delivery.None?
        invariant controller.revision >= old(controller.revision) && (old(controller.closed) ==> controller.closed)
        decreases moves
      {
        var enabled: bool, kind: int := *, *;
        if kind == 0 {
          var _ := controller.SetEnabled(enabled);
        } else if kind == 1 {
          controller.Close();
        } else {
          var _ := controller.Deliver();
        }
        moves := moves - 1;
      }
    }

    /** The check of a token's form. */
    static method ValidEndpoint(endpoint: array<Byte>) returns (valid: bool)
      requires endpoint.Length == 36
      ensures valid <==> ValidToken(endpoint[..])
    {
      if (endpoint[0] == 0 && endpoint[1] == 0) || endpoint[2] != 100 || endpoint[3] != 100 {
        return false;
      }
      for i := 4 to 36
        invariant forall j :: 4 <= j < i ==> 48 <= endpoint[j] <= 57 || 97 <= endpoint[j] <= 102
      {
        var value := endpoint[i];
        if !((value >= 48 && value <= 57) || (value >= 97 && value <= 102)) {
          return false;
        }
      }
      return true;
    }

    /** Looks at the tunnel that has just been started. */
    method Inspect(endpoint: array<Byte>) returns (sound: bool)
      requires Valid() && endpoint.Length == 36 && engine.calls != [] && Opened(engine.calls[|engine.calls| - 1])
      modifies engine
      ensures Valid() && |engine.calls| == |old(engine.calls)| + 1 && old(engine.calls) <= engine.calls
      ensures var call := engine.calls[|engine.calls| - 1];
                call.Looked? && call.handle == handle && call.token == endpoint[..] && (sound <==> Sound(call))
    {
      hide SingleTunnel, Live, ValidToken;
      ghost var before := engine.calls;
      var status := new int[7](_ => 0);
      var ok := engine.Status(handle, status, endpoint);
      ghost var look := engine.calls[|before|];
      LiveAfter(before, look);
      SingleAfter(before, look);
      var valid := ValidEndpoint(endpoint);
      if !ok || status[0] != 1 || status[1] != 1 || status[2] < 0 || status[2] > 128 || status[5] < 0
          || status[5] > 65535 || status[6] < 0 || status[6] > 4 || !valid {
        return false;
      }
      return true;
    }

    /**
     * Hands an update to the lock, and a runnable to the dispatcher if one is needed; a dispatcher that fails closes
     * the controller.
     */
    method Publish(update: Update<array<Byte>>)
      modifies controller, Buffers(controller.Locked().delivery), Buffers(Some(update))
      ensures Gone(Some(update)) || controller.Locked().delivery == Some(update)
      ensures controller.revision == old(controller.revision) && (old(controller.closed) ==> controller.closed)
      ensures Current(controller.Locked(), update.revision) ==> controller.Locked().delivery == Some(update)
      ensures Current(controller.Locked(), update.revision)
              && Buffers(old(controller.Locked()).delivery) !! Buffers(Some(update)) ==>
                forall b :: b in Buffers(Some(update)) ==> b[..] == old(b[..])
    {
      hide SetEnabledLocked;
      var message := new Message(update);
      var enqueue := controller.Post(message);
      var queued: bool := *;
      if enqueue && !queued {
        controller.Close();
      }
    }

    /** Stops what is still running; afterwards this worker owns nothing, or the stop has failed. */
    method StopOld() returns (ok: bool)
      requires Valid()
      modifies this, engine
      ensures Valid() && (ok <==> handle == 0) && (old(handle) == 0 ==> ok)
      ensures if old(handle) == 0 then engine.calls == old(engine.calls)
              else
                && old(engine.calls) <= engine.calls
                && StopScript(engine.calls[|old(engine.calls)|..], old(handle), handle)
      ensures handle != 0 ==> Resists(engine.calls, handle)
    {
      hide SingleTunnel, Live;
      if handle == 0 {
        return true;
      }
      ghost var before := engine.calls;
      var stop := engine.Stop(handle);
      LiveAfter(before, Stopped(handle, stop));
      SingleAfter(before, Stopped(handle, stop));
      if stop.Threw? || stop.value < 0 {
        return false;
      }
      handle := 0;
      return true;
    }

    /** A tunnel of this worker's, if the library returns one. */
    method StartNew(endpoint: array<Byte>) returns (ok: bool)
      requires Valid() && handle == 0
      modifies this, engine, endpoint
      ensures Valid() && (ok <==> handle != 0) && |engine.calls| == |old(engine.calls)| + 1
      ensures old(engine.calls) <= engine.calls
      ensures var call := engine.calls[|old(engine.calls)|];
                call.Started? && handle == if Opened(call) then call.result.value else 0
    {
      hide SingleTunnel, Live;
      ghost var before := engine.calls;
      var start := engine.Start(endpoint);
      LiveAfter(before, Started(start));
      SingleAfter(before, Started(start));
      handle := if start.Returned? && start.value > 0 then start.value else 0;
      return handle != 0;
    }

    /**
     * The native part of a turn, with other threads moving in between: its calls are those of the machine's turn, and
     * they explain the answer.  Without an answer the command is no longer current.
     */
    method Drive(command: Command)
        returns (buffer: Option<array<Byte>>, answer: Option<Phase>, ghost turn: seq<EngineCall>)
      requires Valid()
      modifies this, engine, controller, Buffers(controller.Locked().delivery)
      ensures Valid() && engine.calls == old(engine.calls) + turn && Script(turn, old(handle), command.enabled, handle)
      ensures if answer.Some? then Explains(turn, old(handle), command.enabled, answer.value)
                else !Current(controller.Locked(), command.revision)
      ensures buffer.Some? ==> fresh(buffer.value)
      ensures answer == Some(Ready) ==> buffer.Some? && turn != [] && Shows(turn[|turn| - 1], buffer.value, handle)
      ensures controller.Locked().delivery == old(controller.Locked()).delivery || controller.Locked().delivery.None?
    {
      hide SingleTunnel, Live, Script, StartScript, StopScript, After, Explains, Cleared, JustStarted, Succeeded;
      hide Opened, Resists, Gone, Sound, JustLooked, Holding, Shows;
      buffer, answer := None, Some(Broken);
      ghost var before, first := engine.calls, handle;
      var sound := StopOld();
      turn := engine.calls[|before|..];
      StoppedOrNot(turn, first, handle);
      OthersMove();
      if sound {
        ClearedScript(turn, first, command.enabled);
        var current := controller.IsCurrent(command.revision);
        if !current {
          return buffer, None, turn;
        }
        if !command.enabled {
          return buffer, Some(Disabled), turn;
        }
        buffer, answer, turn := Launch(command, before, first, turn);
        if answer == Some(Ready) {
          LookedScript(turn, first, command.enabled, handle);
        } else if answer.None? || handle == 0 {
          StartedScript(turn, first, command.enabled, handle);
        }
      }
      if answer == Some(Broken) && handle != 0 {
        turn := Recover(command, before, first, turn);
      }
    }

    /** What is still running after a failure is stopped, if it can be. */
    method Recover(command: Command, ghost before: seq<EngineCall>, ghost first: int, ghost failed: seq<EngineCall>)
        returns (ghost turn: seq<EngineCall>)
      requires Valid() && handle != 0 && engine.calls == before + failed
      requires
               || (JustLooked(failed, first, command.enabled, handle) && !Sound(failed[|failed| - 1]))
               || (first != 0 && handle == first && StopScript(failed, first, first))
      modifies this, engine
      ensures Valid() && engine.calls == before + turn && Script(turn, first, command.enabled, handle)
      ensures Explains(turn, first, command.enabled, Broken)
    {
      hide SingleTunnel, Live, Script, StartScript, StopScript, After, Explains, Cleared, JustStarted, Succeeded;
      hide Opened, Resists, Sound, JustLooked, Holding;
      ghost var now, sofar := handle, engine.calls;
      var _ := StopOld();
      LastCall(sofar, engine.calls, now, handle);
      Grown(before, failed, engine.calls);
      StoppedScript(failed, first, command.enabled, now, engine.calls[|engine.calls| - 1], handle);
      turn := failed + [engine.calls[|engine.calls| - 1]];
    }

    /** The start and the two looks at what came of it: ready, broken, or no longer asked for. */
    method Launch(command: Command, ghost before: seq<EngineCall>, ghost first: int, ghost stopped: seq<EngineCall>)
        returns (buffer: Option<array<Byte>>, answer: Option<Phase>, ghost turn: seq<EngineCall>)
      requires Valid() && handle == 0 && command.enabled && engine.calls == before + stopped && Cleared(stopped, first)
      modifies this, engine, controller, Buffers(controller.Locked().delivery)
      ensures Valid() && engine.calls == before + turn && turn != []
      ensures buffer.Some? && fresh(buffer.value)
      ensures match answer
              case None =>
                !Current(controller.Locked(), command.revision) && JustStarted(turn, first, command.enabled, handle)
              case Some(phase) =>
                if handle == 0 then phase.Broken? && JustStarted(turn, first, command.enabled, 0)
                else
                  && JustLooked(turn, first, command.enabled, handle)
                  && phase == (if Sound(turn[|turn| - 1]) then Ready else Broken)
                  && (phase.Ready? ==> Shows(turn[|turn| - 1], buffer.value, handle))
      ensures controller.Locked().delivery == old(controller.Locked()).delivery || controller.Locked().delivery.None?
    {
      hide SingleTunnel, Live, Cleared, Sound, ValidToken, JustLooked, JustStarted;
      var endpoint := new Byte[36];
      buffer, answer := Some(endpoint), Some(Broken);
      var started := StartNew(endpoint);
      Grown(before, stopped, engine.calls);
      turn := stopped + [engine.calls[|engine.calls| - 1]];
      StartedNow(turn, first, command.enabled, handle);
      StartedOpened(turn, first, command.enabled, handle);
      hide Opened;
      OthersMove();
      if started {
        var current := controller.IsCurrent(command.revision);
        if !current {
          return buffer, None, turn;
        }
        ghost var launched := turn;
        var sound := Inspect(endpoint);
        Grown(before, launched, engine.calls);
        turn := launched + [engine.calls[|engine.calls| - 1]];
        LookedNow(launched, first, command.enabled, handle, engine.calls[|engine.calls| - 1]);
        answer := if sound then Some(Ready) else Some(Broken);
      }
    }

    /**
     * One command.  As long as it is current, its answer is held for delivery, and is what the native calls of this
     * `turn` explain; the endpoint buffer is wiped unless the lock holds it.
     */
    method Perform(command: Command) returns (buffer: Option<array<Byte>>, ghost turn: seq<EngineCall>)
      requires Valid()
      modifies this, engine, controller, Buffers(controller.Locked().delivery)
      ensures Valid() && engine.calls == old(engine.calls) + turn && Script(turn, old(handle), command.enabled, handle)
      ensures Current(controller.Locked(), command.revision) ==>
                var held := controller.Locked().delivery;
                held.Some? && held.value.revision == command.revision
                    && Explains(turn, old(handle), command.enabled, held.value.phase)
      ensures Current(controller.Locked(), command.revision) && turn != [] && Sound(turn[|turn| - 1]) ==>
                && buffer.Some? && controller.Locked().delivery == Some(Update(command.revision, Ready, buffer))
                && Shows(turn[|turn| - 1], buffer.value, handle) && ValidToken(buffer.value[..])
      ensures Current(controller.Locked(), command.revision) && !(turn != [] && Sound(turn[|turn| - 1])) ==>
                controller.Locked().delivery.Some? && !controller.Locked().delivery.value.phase.Ready?
      ensures Current(controller.Locked(), command.revision) ==>
                forall k :: 0 <= k < |turn| && Opened(turn[k]) ==> k + 1 < |turn| && turn[k + 1].Looked?
      ensures buffer.Some? ==>
                AllZero(buffer.value) || controller.Locked().delivery == Some(Update(command.revision, Ready, buffer))
    {
      hide SingleTunnel, Live, Script, Explains, Opened, Sound, ValidToken;
      var answer;
      buffer, answer, turn := Drive(command);
      if answer.Some? {
        ReadyExactly(turn, old(handle), command.enabled, handle, answer.value);
        SoundShows(turn);
        OthersMove();
        Publish(Update(command.revision, answer.value, if answer.value.Ready? then buffer else None));
      }
      if buffer.Some? && answer != Some(Ready) {
        Fill(buffer.value);
      }
    }
  }

  /** The look was at this tunnel, and the buffer still has the token it saw. */
  ghost predicate Shows(look: EngineCall, buffer: array<Byte>, handle: int)
    reads buffer
  {
    look.Looked? && look.handle == handle != 0 && look.token == buffer[..]
  }

  lemma SoundShows(turn: seq<EngineCall>)
    ensures turn != [] && Sound(turn[|turn| - 1]) ==>
              turn[|turn| - 1].Looked? && ValidToken(turn[|turn| - 1].token)
  {
  }

  lemma StoppedOrNot(turn: seq<EngineCall>, handle: int, next: int)
    requires if handle == 0 then turn == [] && next == 0 else StopScript(turn, handle, next)
    ensures if next == 0 then Cleared(turn, handle) else handle != 0 && next == handle
  {
  }

  lemma StartedNow(turn: seq<EngineCall>, handle: int, enabled: bool, next: int)
    requires turn != [] && Cleared(turn[..|turn| - 1], handle) && enabled && turn[|turn| - 1].Started?
    requires next == if Opened(turn[|turn| - 1]) then turn[|turn| - 1].result.value else 0
    ensures JustStarted(turn, handle, enabled, next)
  {
  }

  lemma LookedNow(turn: seq<EngineCall>, handle: int, enabled: bool, next: int, look: EngineCall)
    requires JustStarted(turn, handle, enabled, next) && look.Looked? && look.handle == next != 0
    ensures JustLooked(turn + [look], handle, enabled, next)
  {
    assert (turn + [look])[..|turn|] == turn;
  }

  /** A start that gave a tunnel was the last call. */
  lemma StartedOpened(turn: seq<EngineCall>, handle: int, enabled: bool, next: int)
    requires JustStarted(turn, handle, enabled, next)
    ensures turn != [] && (next != 0 ==> Opened(turn[|turn| - 1]))
  {
  }

  lemma LastCall(before: seq<EngineCall>, calls: seq<EngineCall>, handle: int, next: int)
    requires before <= calls && StopScript(calls[|before|..], handle, next)
    ensures |calls| == |before| + 1 && StopScript([calls[|calls| - 1]], handle, next)
  {
    assert calls[|before|..] == [calls[|calls| - 1]];
  }

  lemma Grown(before: seq<EngineCall>, turn: seq<EngineCall>, calls: seq<EngineCall>)
    requires before + turn <= calls && |calls| == |before| + |turn| + 1
    ensures calls == before + (turn + [calls[|calls| - 1]])
  {
  }

  /** The very last call was a stop of this handle that failed. */
  ghost predicate Resists(calls: seq<EngineCall>, handle: int) {
    calls != [] && calls[|calls| - 1].Stopped? && calls[|calls| - 1].handle == handle
        && !Succeeded(calls[|calls| - 1].result)
  }

  ghost predicate Gone(update: Option<Update<array<Byte>>>)
    reads Buffers(update)
  {
    forall b :: b in Buffers(update) ==> AllZero(b)
  }

  // ----- commands and deliveries

  predicate BeforePost(pc: Pc) {
    pc.Stopping? || pc.Checking? || pc.Starting? || pc.Rechecking? || pc.Inspecting? || pc.Recovering? || pc.Posting?
  }

  /** A pending command is the latest one, each command posts once, and the worker rests only on the latest. */
  ghost predicate CommandInv(s: State) {
    && s.command.revision <= s.lock.revision
    && (s.lock.pending.Some? ==>
         !s.lock.closed && s.lock.pending.value.revision == s.lock.revision > s.command.revision)
    && (!s.lock.closed && s.lock.pending.None? ==> s.command.revision == s.lock.revision)
    && s.posted <= s.command.revision && (BeforePost(s.pc) ==> s.posted < s.command.revision)
    && (s.pc.Posting? ==> s.pc.update.revision == s.command.revision)
  }

  /** At most one runnable is outstanding, and a held delivery always has one. */
  ghost predicate DeliveryInv(s: State) {
    && s.runnables + (if s.pc.Dispatching? then 1 else 0) <= 1
    && (s.runnables > 0 || s.pc.Dispatching? ==> s.lock.scheduled)
    && (s.lock.scheduled && !s.lock.closed ==> s.runnables == 1 || s.pc.Dispatching?)
    && (s.lock.delivery.Some? ==> s.lock.scheduled && (s.runnables == 1 || s.pc.Dispatching?))
    && (s.lock.delivery.Some? ==> s.lock.delivery.value.revision == s.lock.revision)
  }

  /** What the listener has been given, and what it may still be given. */
  ghost predicate AcceptedInv(s: State) {
    && (s.lock.delivery.Some? ==> s.lock.delivery.value.revision <= s.posted)
    && (forall i :: 0 <= i < |s.accepted| ==> s.accepted[i].0 == s.accepted[i].1 <= s.posted)
    && (forall i, j :: 0 <= i < j < |s.accepted| ==> s.accepted[i].0 < s.accepted[j].0)
    && (s.lock.delivery.Some? ==>
         forall i :: 0 <= i < |s.accepted| ==> s.accepted[i].0 < s.lock.delivery.value.revision)
  }

  lemma CommandStep(s: State, a: Action)
    requires CommandInv(s) && Enabled(s, a)
    ensures CommandInv(Step(s, a))
  {
    if OfNative(a) {
      hide CloseLocked, PostLocked, DeliverLocked, SetEnabledLocked;
    }
  }

  lemma DeliveryStep(s: State, a: Action)
    requires CommandInv(s) && DeliveryInv(s) && Enabled(s, a)
    ensures DeliveryInv(Step(s, a))
  {
    if OfNative(a) {
      hide CommandInv, CloseLocked, PostLocked, DeliverLocked, SetEnabledLocked, Current;
    } else if !OfOthers(a) {
      hide DeliverLocked, SetEnabledLocked;
    } else {
      hide PostLocked;
    }
  }

  lemma AcceptedStep(s: State, a: Action)
    requires CommandInv(s) && AcceptedInv(s) && Enabled(s, a)
    ensures AcceptedInv(Step(s, a))
  {
    if !a.DeliverBegin? && !a.Post? {
      hide AcceptedInv, CommandInv;
      AcceptedUnchanged(s, Step(s, a));
    }
  }

  lemma AcceptedUnchanged(s: State, t: State)
    requires AcceptedInv(s) && t.accepted == s.accepted && t.posted == s.posted
    requires t.lock.delivery == s.lock.delivery || t.lock.delivery.None?
    ensures AcceptedInv(t)
  {
  }

  // ----- endpoint wiping

  ghost predicate Holds(s: State, buffer: nat) {
    || s.endpoint == Some(buffer)
    || (s.lock.delivery.Some? && s.lock.delivery.value.endpoint == Some(buffer))
    || (s.listening.Some? && s.listening.value.endpoint == Some(buffer))
  }

  ghost predicate WipeInv(s: State) {
    && s.dirty <= s.buffers
    && (forall b :: b in s.dirty ==> Holds(s, b))
    && (s.pc.Posting? && s.pc.update.phase.Ready? ==> s.pc.update.endpoint == s.endpoint)
    && (s.pc.Idle? || s.pc.Leaving? || s.pc.Terminating? || s.pc.Exited? ==> s.endpoint.None?)
    && (s.pc.Stopping? || s.pc.Checking? || s.pc.Starting? ==> s.endpoint.None?)
    && (s.pc.Exited? ==> s.lock.delivery.None?)
  }

  lemma WipeStep(s: State, a: Action)
    requires WipeInv(s) && Enabled(s, a)
    ensures WipeInv(Step(s, a))
  {
    if OfNative(a) {
      hide CloseLocked, PostLocked, DeliverLocked, SetEnabledLocked;
    }
  }

  // ----- what an answer says about the tunnel

  /** Either nothing is running, or the very last native call was a stop of it that failed. */
  ghost predicate Quiet(s: State) {
    s.handle != 0 ==>
        s.calls != [] && s.calls[|s.calls| - 1].Stopped? && s.calls[|s.calls| - 1].handle == s.handle
        && !Succeeded(s.calls[|s.calls| - 1].result)
  }

  /** The very last native call was a look that found this tunnel sound. */
  ghost predicate SeenSound(s: State) {
    s.calls != [] && Sound(s.calls[|s.calls| - 1]) && s.calls[|s.calls| - 1].handle == s.handle
  }

  predicate AfterPosting(pc: Pc) { pc.Dispatching? || pc.Wiping? || pc.Idle? }

  /** What the phase of an answer claims about its command and the tunnel. */
  ghost predicate Claims(s: State, phase: Phase) {
    && (if phase.Ready? then s.handle != 0 && s.command.enabled && SeenSound(s) else Quiet(s))
    && (phase.Disabled? ==> !s.command.enabled)
  }

  /** The claim holds until the controller is closed or the worker takes a newer command. */
  ghost predicate Answered(s: State, update: Update<nat>) {
    s.lock.closed || s.command.revision > update.revision
        || (s.command.revision == update.revision && AfterPosting(s.pc) && Claims(s, update.phase))
  }

  ghost predicate WorkerInv(s: State) {
    && (s.pc.Posting? ==> Claims(s, s.pc.update.phase))
    && (s.pc.Rechecking? || s.pc.Inspecting? ==> s.handle != 0)
    && (s.pc.Starting? || s.pc.Rechecking? || s.pc.Inspecting? ==> s.command.enabled)
    && (AfterPosting(s.pc) && !s.command.enabled ==> Quiet(s))
  }

  ghost predicate AnswerInv(s: State) {
    && (s.lock.delivery.Some? ==>
         Answered(s, s.lock.delivery.value) && s.lock.pending.None? && s.command.revision == s.lock.revision)
    && (s.listening.Some? ==>
         Answered(s, s.listening.value) && !s.lock.closed && s.listening.value.revision == s.lock.revision)
  }

  lemma AnsweredStays(s: State, a: Action, update: Update<nat>)
    requires CommandInv(s) && Enabled(s, a) && Answered(s, update)
    ensures Answered(Step(s, a), update)
  {
  }

  lemma WorkerStep(s: State, a: Action)
    requires TunnelInv(s) && WorkerInv(s) && Enabled(s, a)
    ensures WorkerInv(Step(s, a))
  {
    hide SingleTunnel, Live;
  }

  lemma AnswerStep(s: State, a: Action)
    requires CommandInv(s) && DeliveryInv(s) && WorkerInv(s) && AnswerInv(s) && Enabled(s, a)
    ensures AnswerInv(Step(s, a))
  {
    if s.lock.delivery.Some? {
      AnsweredStays(s, a, s.lock.delivery.value);
    }
    if s.listening.Some? {
      AnsweredStays(s, a, s.listening.value);
    }
    if !a.Post? {
      hide Answered, Claims, WorkerInv;
    }
  }

  // ----- every run

  ghost predicate Run(states: seq<State>, actions: seq<Action>) {
    && |states| == |actions| + 1 && states[0] == Initial()
    && forall i :: 0 <= i < |actions| ==> Enabled(states[i], actions[i]) && states[i + 1] == Step(states[i], actions[i])
  }

  ghost predicate Inv(s: State) {
    TunnelInv(s) && CommandInv(s) && DeliveryInv(s) && AcceptedInv(s) && WipeInv(s) && WorkerInv(s) && AnswerInv(s)
  }

  lemma StepKeepsInv(s: State, a: Action)
    requires Inv(s) && Enabled(s, a)
    ensures Inv(Step(s, a))
  {
    hide TunnelInv, CommandInv, DeliveryInv, AcceptedInv, WipeInv, WorkerInv, AnswerInv, Step;
    TunnelStep(s, a);
    CommandStep(s, a);
    DeliveryStep(s, a);
    AcceptedStep(s, a);
    WipeStep(s, a);
    WorkerStep(s, a);
    AnswerStep(s, a);
  }

  lemma {:induction false} RunKeepsInv(states: seq<State>, actions: seq<Action>, i: nat)
    requires Run(states, actions) && i < |states|
    ensures Inv(states[i])
  {
    hide Step;
    if i > 0 {
      RunKeepsInv(states, actions, i - 1);
      hide Inv;
      StepKeepsInv(states[i - 1], actions[i - 1]);
    }
  }

  /**
   * In every run a start is called only when every handle returned earlier has been stopped with a non-negative
   * answer, and after a successful start the next native call is a stop of its handle; a terminated worker has tried.
   */
  lemma OneTunnelAtATime(states: seq<State>, actions: seq<Action>, i: nat)
    requires Run(states, actions) && i < |states|
    ensures SingleTunnel(states[i].calls)
    ensures i < |actions| && actions[i].StartTunnel? ==> Live(states[i].calls) == {}
    ensures var calls := states[i].calls; states[i].pc.Exited? && calls != [] ==> !Opened(calls[|calls| - 1])
  {
    RunKeepsInv(states, actions, i);
  }

  /**
   * A tunnel whose command has been superseded or revoked never rests: the worker can take its next step, which stops
   * it.
   */
  lemma SupersededTunnelIsStopped(states: seq<State>, actions: seq<Action>, i: nat)
    requires Run(states, actions) && i < |states|
    requires states[i].pc.Idle? && states[i].handle != 0 && !Current(states[i].lock, states[i].command.revision)
    ensures states[i].listening.None? ==> Enabled(states[i], Take)
    ensures Enabled(states[i], Take) ==>
              AfterTake(states[i]).pc == (if states[i].lock.closed then Leaving else Stopping)
    ensures Enabled(states[i], Take) ==> AfterTake(states[i]).handle == states[i].handle
  {
    RunKeepsInv(states, actions, i);
  }

  /**
   * Deliveries: one runnable, none lost, and the listener sees strictly growing revisions, each the latest when
   * accepted.
   */
  lemma DeliveriesAreCoalesced(states: seq<State>, actions: seq<Action>, i: nat)
    requires Run(states, actions) && i < |states|
    ensures states[i].runnables <= 1
    ensures states[i].lock.delivery.Some? ==> states[i].runnables == 1 || states[i].pc.Dispatching?
    ensures states[i].lock.pending.Some? ==> states[i].lock.pending.value.revision == states[i].lock.revision
    ensures forall j :: 0 <= j < |states[i].accepted| ==> states[i].accepted[j].0 == states[i].accepted[j].1
    ensures forall j, k :: 0 <= j < k < |states[i].accepted| ==> states[i].accepted[j].0 < states[i].accepted[k].0
  {
    RunKeepsInv(states, actions, i);
  }

  /**
   * A token survives only where it is still needed: in the worker's hands, held for delivery, or in the listener's
   * call.
   */
  lemma EndpointsAreWiped(states: seq<State>, actions: seq<Action>, i: nat)
    requires Run(states, actions) && i < |states|
    ensures forall b :: b in states[i].dirty ==> b in states[i].buffers && Holds(states[i], b)
    ensures states[i].pc.Exited? && states[i].listening.None? ==> states[i].dirty == {}
  {
    RunKeepsInv(states, actions, i);
    ClosedForGood(states, actions, i);
  }

  /** After the worker has exited nothing can be held any more. */
  lemma {:induction false} ClosedForGood(states: seq<State>, actions: seq<Action>, i: nat)
    requires Run(states, actions) && i < |states|
    ensures states[i].pc.Exited? ==> states[i].lock.closed && states[i].lock.delivery.None? && states[i].endpoint.None?
  {
    if i > 0 {
      hide Step, Enabled, TunnelInv, CommandInv, DeliveryInv, AcceptedInv, WorkerInv, AnswerInv, WipeInv;
      ClosedForGood(states, actions, i - 1);
      RunKeepsInv(states, actions, i - 1);
      ExitedStays(states[i - 1], actions[i - 1]);
    }
  }

  lemma ExitedStays(s: State, a: Action)
    requires WipeInv(s) && Enabled(s, a)
    requires s.pc.Exited? ==> s.lock.closed && s.lock.delivery.None? && s.endpoint.None?
    ensures Step(s, a).pc.Exited? ==>
              Step(s, a).lock.closed && Step(s, a).lock.delivery.None? && Step(s, a).endpoint.None?
  {
  }

  /** At rest the worker has acted on the latest command of all. */
  lemma RestIsOnLatestCommand(states: seq<State>, actions: seq<Action>, i: nat)
    requires Run(states, actions) && i < |states|
    requires states[i].pc.Idle? && !states[i].lock.closed && states[i].lock.pending.None?
    ensures states[i].command.revision == states[i].lock.revision
  {
    RunKeepsInv(states, actions, i);
  }
}
