/**
 * The service that joins the account routes with the tunnel controller.  Commands and deliveries run on the UI
 * thread; a manual proxy choice may come from any thread and posts a cancellation through two atomic cells.
 */
module ConnectionService {
  import opened Common
  import R = MemoryRoute
  import C = ConnectionController

  /** The UI thread between two of its steps. */
  datatype Ui =
    | Free
    | Changing(enabled: bool, began: nat)
    | Popped | Took(revoked: nat) | Cleared(revoked: nat) | Saw(revoked: nat, generation: nat, requested: bool)
    | Decided | Requeueing
    | Delivering(update: C.Update<nat>) | Delivered

  /** A thread that has selected a manual proxy, and the generation it revoked. */
  datatype Chooser = Selected(token: nat) | Looping(token: nat) | Comparing(token: nat, previous: nat) | Scheduling
      | Queueing

  datatype Service = Service(instance: bool, generation: nat, revision: int, manualGeneration: nat, posted: bool,
      tasks: nat)

  /** `last` is the argument of the service's latest controller command. */
  datatype System = System(route: R.Route, controller: C.State, service: Service, ui: Ui, choosers: map<nat, Chooser>,
      last: Option<bool>)

  function Initial(accounts: nat): System {
    System(R.Fresh(accounts), C.Initial(), Service(false, 0, 0, 0, false, 0), Free, map[], None)
  }

  datatype Action =
    | Worker(step: C.Action)
    | InitializeAccount(call: R.Call)
    // UI thread: a user command
    | Create | BeginChange(enabled: bool, saved: R.Proxy) | FinishChange
    // UI thread: a posted cancellation
    | Pop | TakeToken | ClearPosted | TakeSnapshot | Decide | Recheck | QueueAgain
    // UI thread: a delivery
    | Deliver | Accept(token: Option<Bytes>) | EndDeliver
    // any thread: a manual proxy choice
    | Select(thread: nat, proxy: R.Proxy) | SeeInstance(thread: nat) | ReadToken(thread: nat) | Swap(thread: nat)
    | Schedule(thread: nat) | Queue(thread: nat)

  /** The endpoint of the tunnel the last native call was a look at. */
  function Seen(c: C.State): Option<Bytes> {
    if c.calls != [] && c.calls[|c.calls| - 1].Looked? then Some(c.calls[|c.calls| - 1].token) else None
  }

  predicate CanCommand(s: System) { s.controller.listening.None? && s.controller.lock.revision < C.MAX_LONG }

  predicate Enabled(s: System, a: Action) {
    match a
    case Worker(step) => !C.OfOthers(step) && C.Enabled(s.controller, step)
    case InitializeAccount(call) => call.CallBeforeInitialize? || call.CallAfterInitialize?
    case Create => s.ui.Free? && !s.service.instance
    case BeginChange(_, _) => s.ui.Free? && s.service.instance && s.route.generation < R.MAX_LONG
    case FinishChange => s.ui.Changing? && CanCommand(s)
    case Pop => s.ui.Free? && s.service.tasks > 0
    case TakeToken => s.ui.Popped?
    case ClearPosted => s.ui.Took?
    case TakeSnapshot => s.ui.Cleared?
    case Decide => s.ui.Saw? && CanCommand(s)
    case Recheck => s.ui.Decided?
    case QueueAgain => s.ui.Requeueing?
    case Deliver => s.ui.Free? && C.Enabled(s.controller, C.DeliverBegin)
    // A ready update carries the endpoint of the tunnel the worker has looked at.
    case Accept(token) => s.ui.Delivering? && (s.ui.update.phase.Ready? ==> token == Seen(s.controller))
    case EndDeliver => s.ui.Delivered? && C.Enabled(s.controller, C.DeliverEnd)
    case Select(thread, _) => thread !in s.choosers && s.route.generation < R.MAX_LONG
    case SeeInstance(thread) => thread in s.choosers && s.choosers[thread].Selected?
    case ReadToken(thread) => thread in s.choosers && s.choosers[thread].Looping?
    case Swap(thread) => thread in s.choosers && s.choosers[thread].Comparing?
    case Schedule(thread) => thread in s.choosers && s.choosers[thread].Scheduling?
    case Queue(thread) => thread in s.choosers && s.choosers[thread].Queueing?
  }

  /** Calls the controller and remembers the revision it answers. */
  function Commanded(s: System, enabled: bool): System {
    var answer := C.SetEnabledLocked(s.controller.lock, enabled).1;
    s.(controller := C.AfterSetEnabled(s.controller, enabled), last := Some(enabled),
       service := s.service.(revision := if answer.Ok? then answer.value else s.service.revision))
  }

  // ----- the two atomic cells

  /** Compare-and-set of the claimed generation. */
  function Swapped(v: Service, previous: nat, token: nat): (Service, bool) {
    if v.manualGeneration == previous then (v.(manualGeneration := token), true) else (v, false)
  }

  /** Compare-and-set of the flag: only the thread that raises it queues a runnable. */
  function Raised(v: Service): (Service, bool) { if v.posted then (v, false) else (v.(posted := true), true) }

  predicate Cancels(revoked: nat, generation: nat, requested: bool) {
    revoked > 0 && generation == revoked && !requested
  }

  /** The listener: only an answer to the latest command reaches the route. */
  function Accepted(v: Service, route: R.Route, revision: int, phase: C.Phase, token: Option<Bytes>): R.Route {
    if revision != v.revision then route
    else if phase.Ready? then R.Ready(route, v.generation, token).0
    else if phase.Broken? then R.Fail(route, v.generation).0
    else route
  }

  function AfterDecide(s: System): System
    requires s.ui.Saw?
  {
    if Cancels(s.ui.revoked, s.ui.generation, s.ui.requested)
    then Commanded(s.(service := s.service.(generation := s.ui.revoked)), false).(ui := Decided)
    else s.(ui := Decided)
  }

  function AfterRecheck(s: System): System {
    if s.service.manualGeneration == 0 then s.(ui := Free)
    else
      var (service, raised) := Raised(s.service);
      s.(service := service, ui := if raised then Requeueing else Free)
  }

  function AfterDeliver(s: System): System
    requires s.controller.runnables > 0
  {
    var controller := C.AfterDeliverBegin(s.controller);
    s.(controller := controller, ui := if controller.listening.Some? then Delivering(controller.listening.value)
        else Free)
  }

  function AfterAccept(s: System, token: Option<Bytes>): System
    requires s.ui.Delivering?
  {
    s.(route := Accepted(s.service, s.route, s.ui.update.revision, s.ui.update.phase, token), ui := Delivered)
  }

  function AfterSelect(s: System, thread: nat, proxy: R.Proxy): System {
    var (route, revoked) := R.ManualSelected(s.route, Some(proxy));
    if revoked.Ok? then s.(route := route, choosers := s.choosers[thread := Selected(revoked.value)]) else s
  }

  function AfterReadToken(s: System, thread: nat): System
    requires thread in s.choosers && s.choosers[thread].Looping?
  {
    var token := s.choosers[thread].token;
    s.(choosers := s.choosers[thread := if token > s.service.manualGeneration
        then Comparing(token, s.service.manualGeneration) else Scheduling])
  }

  function AfterSwap(s: System, thread: nat): System
    requires thread in s.choosers && s.choosers[thread].Comparing?
  {
    var c := s.choosers[thread];
    var (service, swapped) := Swapped(s.service, c.previous, c.token);
    s.(service := service, choosers := s.choosers[thread := if swapped then Scheduling else Looping(c.token)])
  }

  function AfterSchedule(s: System, thread: nat): System {
    var (service, raised) := Raised(s.service);
    s.(service := service, choosers := if raised then s.choosers[thread := Queueing] else s.choosers - {thread})
  }

  function Step(s: System, a: Action): System
    requires Enabled(s, a)
  {
    match a
    case Worker(step) => s.(controller := C.Step(s.controller, step))
    case InitializeAccount(call) => s.(route := R.Step(s.route, call))
    case Create => s.(service := s.service.(instance := true))
    case BeginChange(enabled, saved) =>
        s.(route := R.Begin(s.route, enabled, Some(saved)).0, ui := Changing(enabled, s.route.generation + 1))
    case FinishChange => Commanded(s.(service := s.service.(generation := s.ui.began)), s.ui.enabled).(ui := Free)
    case Pop => s.(service := s.service.(tasks := s.service.tasks - 1), ui := Popped)
    case TakeToken => s.(service := s.service.(manualGeneration := 0), ui := Took(s.service.manualGeneration))
    case ClearPosted => s.(service := s.service.(posted := false), ui := Cleared(s.ui.revoked))
    case TakeSnapshot => s.(ui := Saw(s.ui.revoked, s.route.generation, s.route.requested))
    case Decide => AfterDecide(s)
    case Recheck => AfterRecheck(s)
    case QueueAgain => s.(service := s.service.(tasks := s.service.tasks + 1), ui := Free)
    case Deliver => AfterDeliver(s)
    case Accept(token) => AfterAccept(s, token)
    case EndDeliver => s.(controller := C.Step(s.controller, C.DeliverEnd), ui := Free)
    case Select(thread, proxy) => AfterSelect(s, thread, proxy)
    case SeeInstance(thread) =>
      s.(choosers := if s.service.instance then s.choosers[thread := Looping(s.choosers[thread].token)]
          else s.choosers - {thread})
    case ReadToken(thread) => AfterReadToken(s, thread)
    case Swap(thread) => AfterSwap(s, thread)
    case Schedule(thread) => AfterSchedule(s, thread)
    case Queue(thread) => s.(service := s.service.(tasks := s.service.tasks + 1), choosers := s.choosers - {thread})
  }

  ghost predicate Run(states: seq<System>, actions: seq<Action>, accounts: nat) {
    && |states| == |actions| + 1 && states[0] == Initial(accounts)
    && forall i :: 0 <= i < |actions| ==> Enabled(states[i], actions[i]) && states[i + 1] == Step(states[i], actions[i])
  }

  // ----- the program; `tasks` counts the cancellations handed to the UI thread

  class Connection {
    const route: R.Coordinator
    const controller: C.Controller
    var generation: nat
    var revision: int
    var manualGeneration: nat
    var cancellationPosted: bool
    var tasks: nat

    ghost function Cells(): Service
      reads this
    {
      Service(true, generation, revision, manualGeneration, cancellationPosted, tasks)
    }

    constructor (route: R.Coordinator, controller: C.Controller)
      ensures this.route == route && this.controller == controller && Cells() == Service(true, 0, 0, 0, false, 0)
    {
      this.route, this.controller := route, controller;
      generation, revision, manualGeneration, cancellationPosted, tasks := 0, 0, 0, false, 0;
    }

    /** A failure is an exhausted counter: the exception leaves what came before it in place. */
    method Change(enabled: bool, saved: R.Proxy) returns (ok: bool)
      modifies this, route, controller, C.Buffers(controller.Locked().delivery)
      ensures var (begun, number) := R.Begin(old(route.State()), enabled, Some(saved));
              && route.State() == begun && (ok ==> number.Ok?)
              && (number.Failed? ==> controller.Locked() == old(controller.Locked()) && Cells() == old(Cells()))
              && (number.Ok? ==>
                    var (lock, answer, _) := C.SetEnabledLocked(old(controller.Locked()), enabled);
                    && controller.Locked() == lock && ok == answer.Ok?
                    && Cells() == old(Cells()).(generation := number.value, revision := if ok then answer.value
                         else old(revision)))
      ensures ok ==>
                && generation == route.generation == old(route.generation) + 1 && route.requested == enabled
                && (if old(controller.closed) then revision == -1
                    else revision == controller.revision && controller.pending.Some?
                         && controller.pending.value == C.Command(controller.revision, enabled))
    {
      var number := route.CallBegin(enabled, Some(saved));
      hide R.Begin, C.SetEnabledLocked;
      if number.Failed? {
        return false;
      }
      generation := number.value;
      var answer := controller.SetEnabled(enabled);
      if answer.Failed? {
        return false;
      }
      revision := answer.value;
      return true;
    }

    method Accept(update: int, phase: C.Phase, token: Option<Bytes>)
      modifies route
      ensures route.State() == Accepted(old(Cells()), old(route.State()), update, phase, token)
      ensures update != revision || phase.Disabled? ==> route.State() == old(route.State())
      ensures update == revision && phase.Ready? && old(route.generation) == generation && old(route.requested)
              && token.Some? && ValidToken(token.value) ==>
                route.phase.LocalReady? && route.endpoint == token
      ensures update == revision && phase.Broken? && old(route.generation) == generation && old(route.requested) ==>
                route.phase.Broken? && !route.requested
    {
      hide R.Ready, R.Fail;
      if update != revision {
        return;
      }
      if phase.Ready? {
        var _ := route.CallReady(generation, token);
      } else if phase.Broken? {
        var _ := route.CallFailed(generation);
      }
    }

    method CompareAndSet(previous: nat, token: nat) returns (swapped: bool)
      modifies `manualGeneration
      ensures (Cells(), swapped) == Swapped(old(Cells()), previous, token)
    {
      swapped := manualGeneration == previous;
      if swapped {
        manualGeneration := token;
      }
    }

    /**
     * `writes` are what other threads put into the cell between the reads and the compare-and-sets of this loop.
     * The claim is never lost: the cell ends at least as high as this token, holding a value somebody wrote.
     */
    method Claim(revoked: nat, writes: seq<nat>)
      modifies `manualGeneration
      ensures manualGeneration >= revoked
      ensures manualGeneration == revoked || manualGeneration == old(manualGeneration) || manualGeneration in writes
    {
      var attempt := 0;
      var done := false;
      while !done
        invariant attempt <= |writes|
        invariant manualGeneration == revoked || manualGeneration == old(manualGeneration) || manualGeneration in writes
        invariant done ==> manualGeneration >= revoked
        decreases !done, |writes| - attempt
      {
        var previous := manualGeneration;
        if revoked <= previous {
          done := true;
        } else {
          if attempt < |writes| {
            manualGeneration := writes[attempt];
            attempt := attempt + 1;
          }
          done := CompareAndSet(previous, revoked);
        }
      }
    }

    method ScheduleCancellation()
      modifies `cancellationPosted, `tasks
      ensures var (raised, mine) := Raised(old(Cells()));
              Cells() == raised.(tasks := if mine then old(tasks) + 1 else old(tasks))
    {
      if cancellationPosted {
        return;
      }
      cancellationPosted := true;
      tasks := tasks + 1;
    }

    /** The posted runnable; `late` is a token another thread claims while it runs, zero for none. */
    method Cancel(late: nat) returns (ok: bool)
      modifies this, controller, C.Buffers(controller.Locked().delivery)
      ensures var (lock, answer, _) := C.SetEnabledLocked(old(controller.Locked()), false);
              var cancels := Cancels(old(manualGeneration), old(route.generation), old(route.requested));
              && ok == (cancels ==> answer.Ok?)
              && controller.Locked() == (if cancels then lock else old(controller.Locked()))
              && manualGeneration == late && generation == (if cancels then old(manualGeneration) else old(generation))
              && revision == (if cancels && ok then answer.value else old(revision))
              && (ok ==> cancellationPosted == (late > 0) && tasks == old(tasks) + if late > 0 then 1 else 0)
      ensures ok && !old(controller.closed) && old(manualGeneration) > 0
              && old(route.generation) == old(manualGeneration) && !old(route.requested) ==>
                controller.pending == Some(C.Command(controller.revision, false)) && revision == controller.revision
    {
      hide C.SetEnabledLocked;
      var revoked := manualGeneration;
      manualGeneration := 0;
      cancellationPosted := false;
      var seen, requested := route.generation, route.requested;
      manualGeneration := late;
      if revoked > 0 && seen == revoked && !requested {
        generation := revoked;
        var answer := controller.SetEnabled(false);
        if answer.Failed? {
          return false;
        }
        revision := answer.value;
      }
      if manualGeneration != 0 {
        ScheduleCancellation();
      }
      return true;
    }
  }

  // ----- what each step does to the route, seen from outside

  predicate Requested(r: R.Route) { r.phase == R.Starting || r.phase == R.LocalReady }

  lemma RequestedIsRequested(r: R.Route)
    requires R.Coherent(r)
    ensures r.requested == Requested(r)
  {
  }

  predicate Outsider(a: Action) { a.BeginChange? || a.Select? || a.Accept? }

  /** Only the UI thread begins and only choosers revoke; the listener's calls keep the generation. */
  ghost predicate RouteMoves(r: R.Route, a: Action, next: R.Route) {
    && R.Coherent(next)
    && (a.BeginChange? ==>
         next.generation == r.generation + 1 && next.phase == if a.enabled then R.Starting else R.Disabled)
    && (a.Select? ==> next.generation == r.generation + 1 && next.phase == R.Disabled)
    && (!a.BeginChange? && !a.Select? ==>
          next.generation == r.generation && (Requested(next) ==> Requested(r))
              && (next.phase == R.Disabled <==> r.phase == R.Disabled))
    && (!Outsider(a) ==> next.phase == r.phase)
  }

  lemma BeginMoves(r: R.Route, enabled: bool, saved: R.Proxy)
    requires R.Coherent(r) && r.generation < R.MAX_LONG
    ensures RouteMoves(r, BeginChange(enabled, saved), R.Begin(r, enabled, Some(saved)).0)
  {
    R.StepIsCoherent(r, R.CallBegin(enabled, Some(saved)));
    hide ValidToken, R.Coherent;
  }

  lemma SelectMoves(r: R.Route, thread: nat, proxy: R.Proxy)
    requires R.Coherent(r) && r.generation < R.MAX_LONG
    ensures RouteMoves(r, Select(thread, proxy), R.ManualSelected(r, Some(proxy)).0)
    ensures R.ManualSelected(r, Some(proxy)).1 == Ok(r.generation + 1)
  {
    R.StepIsCoherent(r, R.CallManualSelected(Some(proxy)));
    hide ValidToken, R.Coherent;
  }

  lemma AcceptMoves(r: R.Route, generation: nat, token: Option<Bytes>)
    requires R.Coherent(r)
    ensures RouteMoves(r, Accept(token), R.Ready(r, generation, token).0)
    ensures RouteMoves(r, Accept(token), R.Fail(r, generation).0)
    ensures RouteMoves(r, Accept(token), r)
  {
    R.StepIsCoherent(r, R.CallReady(generation, token));
    R.StepIsCoherent(r, R.CallFailed(generation));
    hide ValidToken;
  }

  lemma InitializeMoves(r: R.Route, call: R.Call)
    requires R.Coherent(r) && (call.CallBeforeInitialize? || call.CallAfterInitialize?)
    ensures RouteMoves(r, InitializeAccount(call), R.Step(r, call))
  {
    R.StepIsCoherent(r, call);
    hide R.Coherent;
  }

  lemma RouteStep(s: System, a: Action)
    requires Enabled(s, a) && R.Coherent(s.route)
    ensures RouteMoves(s.route, a, Step(s, a).route)
  {
    match a {
      case InitializeAccount(call) => hide R.Coherent, R.Step, RouteMoves; InitializeMoves(s.route, call);
      case BeginChange(enabled, saved) => hide R.Coherent, R.Begin, RouteMoves; BeginMoves(s.route, enabled, saved);
      case Select(thread, proxy) => hide R.Coherent, R.ManualSelected, RouteMoves; SelectMoves(s.route, thread, proxy);
      case Accept(token) => hide R.Coherent, R.Ready, R.Fail, RouteMoves;
          AcceptMoves(s.route, s.service.generation, token);
      case _ => hide R.Coherent, C.AfterSetEnabled, C.SetEnabledLocked, C.AfterDeliverBegin, C.Step, C.Enabled;
    }
  }

  // ----- tokens: revoked generations on their way to a cancellation

  predicate Carrying(c: Chooser) { c.Selected? || c.Looping? || c.Comparing? }

  predicate Holding(ui: Ui) { ui.Took? || ui.Cleared? || ui.Saw? }

  predicate Revoked(r: R.Route, token: nat) {
    token <= r.generation && (token == r.generation ==> r.phase == R.Disabled)
  }

  /** No token exceeds the route's generation, and one that equals it proves that the route is still disabled. */
  ghost predicate TokenInv(s: System) {
    && (forall t :: t in s.choosers && Carrying(s.choosers[t]) ==>
         0 < s.choosers[t].token && Revoked(s.route, s.choosers[t].token))
    && (forall t :: t in s.choosers && s.choosers[t].Comparing? ==> s.choosers[t].previous < s.choosers[t].token)
    && Revoked(s.route, s.service.manualGeneration)
    && (Holding(s.ui) ==> Revoked(s.route, s.ui.revoked))
    && (s.ui.Saw? && s.ui.generation == s.ui.revoked ==> s.route.phase == R.Disabled && !s.ui.requested)
  }

  predicate ByChooser(a: Action) { a.Select? || a.SeeInstance? || a.ReadToken? || a.Swap? || a.Schedule? || a.Queue? }

  lemma TokenStepOfSelect(s: System, a: Action)
    requires TokenInv(s) && Enabled(s, a) && R.Coherent(s.route) && a.Select?
    ensures TokenInv(Step(s, a))
  {
    hide R.Coherent, R.ManualSelected;
    RouteStep(s, a);
    SelectMoves(s.route, a.thread, a.proxy);
  }

  lemma TokenStepOfChooser(s: System, a: Action)
    requires TokenInv(s) && Enabled(s, a) && R.Coherent(s.route) && ByChooser(a)
    ensures TokenInv(Step(s, a))
  {
    if a.Select? {
      hide TokenInv;
      TokenStepOfSelect(s, a);
    } else {
      hide Revoked, Requested, R.Coherent, R.ManualSelected;
    }
  }

  lemma TokenStepOfOthers(s: System, a: Action)
    requires TokenInv(s) && Enabled(s, a) && R.Coherent(s.route) && !ByChooser(a)
    ensures TokenInv(Step(s, a))
  {
    hide R.Coherent, R.Begin, R.Ready, R.Fail, R.Step;
    hide C.AfterSetEnabled, C.SetEnabledLocked, C.AfterDeliverBegin, C.Step, C.Enabled;
    RouteStep(s, a);
    RequestedIsRequested(s.route);
  }

  // ----- no cancellation is lost

  ghost predicate Scheduled(s: System) { s.service.tasks > 0 || exists t :: t in s.choosers && s.choosers[t].Queueing? }

  ghost predicate Announced(s: System) { exists t :: t in s.choosers && s.choosers[t].Scheduling? }

  /** A raised flag has a runnable on its way, and so has every unclaimed token. */
  ghost predicate PostedInv(s: System) {
    && (s.service.posted ==> Scheduled(s) || s.ui.Popped? || s.ui.Took? || s.ui.Requeueing?)
    && (s.service.manualGeneration != 0 ==>
          || Scheduled(s) || Announced(s) || s.ui.Popped? || s.ui.Took? || s.ui.Cleared? || s.ui.Saw? || s.ui.Decided?
          || s.ui.Requeueing?)
  }

  lemma PostedStepOfChooser(s: System, a: Action)
    requires PostedInv(s) && Enabled(s, a) && ByChooser(a)
    ensures PostedInv(Step(s, a))
  {
    hide R.ManualSelected;
    var t := Step(s, a);
    if a.Select? {
      assert forall u :: u in s.choosers ==> u in t.choosers && t.choosers[u] == s.choosers[u];
    } else if a.thread in t.choosers {
      var moved := t.choosers[a.thread];
    }
    assert forall u :: u in s.choosers && u != a.thread ==> u in t.choosers && t.choosers[u] == s.choosers[u];
  }

  lemma PostedStepOfOthers(s: System, a: Action)
    requires PostedInv(s) && Enabled(s, a) && !ByChooser(a)
    ensures PostedInv(Step(s, a))
  {
    hide R.Begin, R.Ready, R.Fail, R.Step;
    hide C.AfterSetEnabled, C.SetEnabledLocked, C.AfterDeliverBegin, C.Step, C.Enabled;
    assert Step(s, a).choosers == s.choosers;
  }

  // ----- the route and the latest command agree

  /** The cancellation of this generation is still under way. */
  ghost predicate Tracked(s: System, token: nat) {
    || s.service.manualGeneration == token
    || (s.ui.Took? && s.ui.revoked == token) || (s.ui.Cleared? && s.ui.revoked == token)
    || (s.ui.Saw? && s.ui.revoked == token && s.ui.generation == token && !s.ui.requested)
    || InFlight(s, token)
  }

  ghost predicate InFlight(s: System, token: nat) {
    exists t :: t in s.choosers && Carrying(s.choosers[t]) && s.choosers[t].token == token
  }

  /** What the controller will have been told once the command in progress is through. */
  function Told(s: System): Option<bool> { if s.ui.Changing? then Some(s.ui.enabled) else s.last }

  /** Without a service nothing has been told or claimed. */
  ghost predicate InstanceInv(s: System) {
    && (Told(s).Some? ==> s.service.instance)
    && (s.service.manualGeneration > 0 ==> s.service.instance)
    && (Holding(s.ui) && s.ui.revoked > 0 ==> s.service.instance)
    && (forall t :: t in s.choosers && (s.choosers[t].Looping? || s.choosers[t].Comparing?) ==> s.service.instance)
  }

  lemma InstanceStep(s: System, a: Action)
    requires InstanceInv(s) && Enabled(s, a)
    ensures InstanceInv(Step(s, a))
  {
    hide R.ManualSelected, R.Begin, R.Ready, R.Fail, R.Step;
    hide C.AfterSetEnabled, C.SetEnabledLocked, C.AfterDeliverBegin, C.Step, C.Enabled;
  }

  ghost predicate AgreeInv(s: System) {
    && (Told(s).Some? ==> s.route.generation > 0)
    && (Requested(s.route) ==>
          Told(s) == Some(true) && s.route.generation == if s.ui.Changing? then s.ui.began else s.service.generation)
    && (s.route.phase == R.Disabled && Told(s) == Some(true) ==> Tracked(s, s.route.generation))
  }

  lemma AgreeStepOfChooser(s: System, a: Action)
    requires TokenInv(s) && InstanceInv(s) && AgreeInv(s) && Enabled(s, a) && R.Coherent(s.route) && ByChooser(a)
    ensures AgreeInv(Step(s, a))
  {
    hide R.Coherent, R.ManualSelected;
    RouteStep(s, a);
    var t := Step(s, a);
    if a.Select? {
      SelectMoves(s.route, a.thread, a.proxy);
      assert Carrying(t.choosers[a.thread]) && t.choosers[a.thread].token == t.route.generation;
    } else {
      var token := s.route.generation;
      if InFlight(s, token) {
        var u :| u in s.choosers && Carrying(s.choosers[u]) && s.choosers[u].token == token;
        if u in t.choosers && Carrying(t.choosers[u]) && t.choosers[u].token == token {
        } else {
          assert u == a.thread;
        }
      }
    }
  }

  lemma AgreeStepOfOthers(s: System, a: Action)
    requires TokenInv(s) && InstanceInv(s) && AgreeInv(s) && Enabled(s, a) && R.Coherent(s.route) && !ByChooser(a)
    ensures AgreeInv(Step(s, a))
  {
    hide R.Coherent, R.Begin, R.Ready, R.Fail, R.Step;
    hide C.AfterSetEnabled, C.SetEnabledLocked, C.AfterDeliverBegin, C.Step, C.Enabled;
    RouteStep(s, a);
    RequestedIsRequested(s.route);
    assert InFlight(Step(s, a), s.route.generation) == InFlight(s, s.route.generation);
  }

  // ----- the controller's part of the run

  /** What a step of the service is to the controller. */
  function ControllerAction(s: System, a: Action): Option<C.Action>
    requires Enabled(s, a)
  {
    match a
    case Worker(step) => Some(step)
    case FinishChange => Some(C.SetEnabled(s.ui.enabled))
    case Decide => if Cancels(s.ui.revoked, s.ui.generation, s.ui.requested) then Some(C.SetEnabled(false)) else None
    case Deliver => Some(C.DeliverBegin)
    case EndDeliver => Some(C.DeliverEnd)
    case _ => None
  }

  lemma ControllerStep(s: System, a: Action)
    requires Enabled(s, a)
    ensures var action, next := ControllerAction(s, a), Step(s, a).controller;
            if action.Some? then C.Enabled(s.controller, action.value) && next == C.Step(s.controller, action.value)
            else next == s.controller
  {
    hide R.ManualSelected, R.Begin, R.Ready, R.Fail, R.Step, C.AfterDeliverBegin, C.SetEnabledLocked, C.Wiped;
  }

  lemma ControllerKeepsInv(s: System, a: Action)
    requires Enabled(s, a) && C.Inv(s.controller)
    ensures C.Inv(Step(s, a).controller)
  {
    hide C.Inv, C.Step, Step, Enabled;
    ControllerStep(s, a);
    var action := ControllerAction(s, a);
    if action.Some? {
      C.StepKeepsInv(s.controller, action.value);
    }
  }

  /** While the controller is open it knows the service's latest revision and its latest command. */
  ghost predicate LinkInv(s: System) {
    var c := s.controller;
    && (!c.lock.closed ==>
          && s.service.revision == c.lock.revision
          && (if c.lock.pending.Some? then Some(c.lock.pending.value.enabled) == s.last
              else if s.last.Some? then c.command.enabled == s.last.value else c.command == C.Command(0, false)))
    && c.listening == (if s.ui.Delivering? then Some(s.ui.update) else if s.ui.Delivered? then c.listening else None)
    && (s.ui.Delivered? ==> c.listening.Some?)
  }

  lemma LinkStepOfWorker(s: System, a: Action)
    requires LinkInv(s) && C.CommandInv(s.controller) && Enabled(s, a) && a.Worker?
    ensures LinkInv(Step(s, a))
  {
  }

  lemma LinkStepOfOthers(s: System, a: Action)
    requires LinkInv(s) && Enabled(s, a) && !a.Worker?
    ensures LinkInv(Step(s, a))
  {
    hide R.ManualSelected, R.Begin, R.Ready, R.Fail, R.Step;
  }

  // ----- every command is answered, and the answer is true

  ghost predicate Answered(s: System, phase: C.Phase) {
    s.controller.lock.closed
        || (s.service.revision >= 0 && C.Answered(s.controller, C.Update(s.service.revision, phase, None)))
  }

  /** An answer to the latest command is still to come. */
  ghost predicate Awaiting(s: System) {
    s.controller.lock.closed || s.controller.lock.pending.Some? || C.BeforePost(s.controller.pc)
        || s.controller.lock.delivery.Some? || s.ui.Delivering?
  }

  /** Until the controller moves on, the route's endpoint is the one its tunnel was seen with. */
  ghost predicate Fits(s: System) {
    s.controller.lock.closed || s.controller.command.revision > s.service.revision
        || s.route.endpoint == Seen(s.controller)
  }

  ghost predicate OutcomeInv(s: System) {
    && (s.route.phase == R.LocalReady ==> Answered(s, C.Ready) && Fits(s))
    && (s.route.phase == R.Broken ==> Answered(s, C.Broken))
    && (s.ui.Changing? ==> s.route.phase == R.Starting || s.route.phase == R.Disabled)
    && (s.route.phase == R.Starting && !s.ui.Changing? ==> Awaiting(s))
  }

  lemma FitsStill(s: System, a: Action, phase: C.Phase)
    requires Answered(s, phase) && C.CommandInv(s.controller) && Enabled(s, a) && !a.FinishChange? && !a.Decide?
    requires var action, next := ControllerAction(s, a), Step(s, a).controller;
             if action.Some? then C.Enabled(s.controller, action.value) && next == C.Step(s.controller, action.value)
             else next == s.controller
    ensures Fits(s) && Step(s, a).route.endpoint == s.route.endpoint ==> Fits(Step(s, a))
  {
    SameRevision(s, a);
    var action := ControllerAction(s, a);
    if action.Some? {
      if s.controller.lock.closed {
        ClosedStays(s.controller, action.value);
      } else {
        SeenStays(s.controller, action.value, s.service.revision, phase);
      }
    }
    hide C.Step, C.Enabled, C.Answered, C.CommandInv, Seen, ControllerAction, Step, Enabled;
  }

  lemma SeenStays(c: C.State, a: C.Action, revision: nat, phase: C.Phase)
    requires C.CommandInv(c) && C.Answered(c, C.Update(revision, phase, None)) && C.Enabled(c, a)
    ensures var next := C.Step(c, a);
            && (c.command.revision > revision ==> next.command.revision > revision || next.lock.closed)
            && (next.lock.closed || next.command.revision > revision || Seen(next) == Seen(c))
  {
    hide C.Claims;
  }

  lemma SameRevision(s: System, a: Action)
    requires Enabled(s, a) && !a.FinishChange? && !a.Decide?
    ensures Step(s, a).service.revision == s.service.revision
  {
    hide R.ManualSelected, R.Begin, R.Ready, R.Fail, R.Step, C.Step, C.AfterDeliverBegin;
  }

  /** A ready update that is being delivered comes from a sound look, so its endpoint is valid. */
  lemma ReadyIsSeen(c: C.State)
    requires C.CommandInv(c) && C.AnswerInv(c) && c.listening.Some? && c.listening.value.phase.Ready?
    ensures Seen(c).Some? && ValidToken(Seen(c).value)
  {
    hide ValidToken, C.InOrder;
  }

  lemma AnsweredStays(s: System, a: Action, phase: C.Phase)
    requires Answered(s, phase) && C.CommandInv(s.controller) && Enabled(s, a) && !a.FinishChange? && !a.Decide?
    ensures Answered(Step(s, a), phase)
    ensures Fits(s) && Step(s, a).route.endpoint == s.route.endpoint ==> Fits(Step(s, a))
  {
    ControllerStep(s, a);
    FitsStill(s, a, phase);
    hide Fits;
    hide C.Answered, C.CommandInv, C.Step, C.Enabled, R.ManualSelected, R.Begin, R.Ready, R.Fail, R.Step;
    var action := ControllerAction(s, a);
    if action.Some? {
      if s.controller.lock.closed {
        ClosedStays(s.controller, action.value);
      } else {
        C.AnsweredStays(s.controller, action.value, C.Update(s.service.revision, phase, None));
      }
    }
  }

  lemma ClosedStays(c: C.State, a: C.Action)
    requires c.lock.closed && C.Enabled(c, a)
    ensures C.Step(c, a).lock.closed
  {
  }

  lemma OutcomeStepOfWorker(s: System, a: Action)
    requires OutcomeInv(s) && LinkInv(s) && C.CommandInv(s.controller) && Enabled(s, a) && a.Worker?
    ensures OutcomeInv(Step(s, a))
  {
    if s.route.phase == R.LocalReady {
      AnsweredStays(s, a, C.Ready);
    }
    if s.route.phase == R.Broken {
      AnsweredStays(s, a, C.Broken);
    }
    hide Answered;
  }

  /** A new command makes the old answer stale, and is itself still to be answered. */
  lemma OutcomeStepOfCommand(s: System, a: Action)
    requires OutcomeInv(s) && TokenInv(s) && Enabled(s, a) && (a.FinishChange? || a.Decide?)
    ensures OutcomeInv(Step(s, a))
  {
    hide C.Answered;
  }

  lemma OutcomeStepOfAccept(s: System, a: Action)
    requires OutcomeInv(s) && LinkInv(s) && AgreeInv(s) && R.Coherent(s.route) && Enabled(s, a) && a.Accept?
    requires C.CommandInv(s.controller) && C.AnswerInv(s.controller)
    ensures OutcomeInv(Step(s, a))
  {
    RequestedIsRequested(s.route);
    if s.ui.update.phase.Ready? {
      ReadyIsSeen(s.controller);
    }
    hide R.Coherent, ValidToken;
  }

  /** A delivery hands the held answer on, and loses nothing else that is still to come. */
  lemma OutcomeStepOfDelivery(s: System, a: Action)
    requires OutcomeInv(s) && C.CommandInv(s.controller) && C.DeliveryInv(s.controller) && Enabled(s, a)
    requires a.Deliver? || a.EndDeliver?
    ensures OutcomeInv(Step(s, a))
  {
    if s.route.phase == R.LocalReady {
      AnsweredStays(s, a, C.Ready);
    }
    if s.route.phase == R.Broken {
      AnsweredStays(s, a, C.Broken);
    }
    hide Answered;
  }

  lemma OutcomeStepOfRest(s: System, a: Action)
    requires OutcomeInv(s) && R.Coherent(s.route) && Enabled(s, a)
    requires !a.Worker? && !a.FinishChange? && !a.Decide? && !a.Accept? && !a.Deliver? && !a.EndDeliver?
    ensures OutcomeInv(Step(s, a))
  {
    RouteStep(s, a);
    hide R.Coherent, R.ManualSelected, R.Begin, R.Ready, R.Fail, R.Step, C.Answered;
  }

  // ----- every run

  ghost predicate Inv(s: System) {
    && R.Coherent(s.route) && C.Inv(s.controller)
    && TokenInv(s) && InstanceInv(s) && PostedInv(s) && AgreeInv(s) && LinkInv(s) && OutcomeInv(s)
  }

  lemma StartHolds(accounts: nat)
    ensures Inv(Initial(accounts))
  {
  }

  lemma ControllerParts(c: C.State)
    requires C.Inv(c)
    ensures C.TunnelInv(c) && C.CommandInv(c) && C.DeliveryInv(c) && C.WorkerInv(c) && C.AnswerInv(c)
  {
  }

  lemma OutcomeStep(s: System, a: Action)
    requires Inv(s) && Enabled(s, a)
    ensures OutcomeInv(Step(s, a))
  {
    hide R.Coherent, C.Inv, C.CommandInv, C.DeliveryInv, C.AnswerInv, TokenInv, InstanceInv, PostedInv, AgreeInv;
    hide LinkInv, OutcomeInv, Step, Enabled;
    ControllerParts(s.controller);
    if a.Worker? {
      OutcomeStepOfWorker(s, a);
    } else if a.FinishChange? || a.Decide? {
      OutcomeStepOfCommand(s, a);
    } else if a.Accept? {
      OutcomeStepOfAccept(s, a);
    } else if a.Deliver? || a.EndDeliver? {
      OutcomeStepOfDelivery(s, a);
    } else {
      OutcomeStepOfRest(s, a);
    }
  }

  lemma StepKeepsInv(s: System, a: Action)
    requires Inv(s) && Enabled(s, a)
    ensures Inv(Step(s, a))
  {
    OutcomeStep(s, a);
    hide R.Coherent, C.Inv, C.CommandInv, TokenInv, InstanceInv, PostedInv, AgreeInv, LinkInv, OutcomeInv, Step;
    hide Enabled;
    ControllerParts(s.controller);
    ControllerKeepsInv(s, a);
    RouteStep(s, a);
    InstanceStep(s, a);
    if ByChooser(a) {
      TokenStepOfChooser(s, a);
      PostedStepOfChooser(s, a);
      AgreeStepOfChooser(s, a);
    } else {
      TokenStepOfOthers(s, a);
      PostedStepOfOthers(s, a);
      AgreeStepOfOthers(s, a);
    }
    if a.Worker? {
      LinkStepOfWorker(s, a);
    } else {
      LinkStepOfOthers(s, a);
    }
  }

  lemma {:induction false} RunKeepsInv(states: seq<System>, actions: seq<Action>, accounts: nat, i: nat)
    requires Run(states, actions, accounts) && i < |states|
    ensures Inv(states[i])
  {
    hide Step, Enabled, Inv, Initial;
    if i == 0 {
      StartHolds(accounts);
    } else {
      RunKeepsInv(states, actions, accounts, i - 1);
      StepKeepsInv(states[i - 1], actions[i - 1]);
    }
  }

  /** Nothing is queued for the UI thread, which is idle, and no proxy choice is half way through. */
  ghost predicate UiAtRest(s: System) { s.ui.Free? && s.service.tasks == 0 && s.choosers == map[] }

  /** The worker waits for a command, and no answer is left to deliver. */
  ghost predicate WorkerAtRest(s: System) {
    var c := s.controller;
    !c.lock.closed && c.pc.Idle? && c.lock.pending.None? && c.lock.delivery.None?
  }

  /**
   * At every point of every run where the UI thread's queue is drained, a requested route means that the controller's
   * last command was an activation, for this very generation; a disabled one that it was none.  So no cancellation is
   * lost.
   */
  lemma RouteAndTunnelAgree(states: seq<System>, actions: seq<Action>, accounts: nat, i: nat)
    requires Run(states, actions, accounts) && i < |states| && UiAtRest(states[i])
    ensures var s := states[i];
            && (s.route.requested ==> s.last == Some(true) && s.service.generation == s.route.generation)
            && (s.route.phase == R.Disabled ==> s.last != Some(true))
  {
    RunKeepsInv(states, actions, accounts, i);
    hide C.Inv, LinkInv, OutcomeInv, InstanceInv, Run;
  }

  /** A cancellation reaches the controller only while the route is not requested, so it never stops an activation. */
  lemma NoActivationIsCancelled(states: seq<System>, actions: seq<Action>, accounts: nat, i: nat)
    requires Run(states, actions, accounts) && i < |actions| && actions[i].Decide?
    ensures states[i].route.requested ==>
              states[i + 1].controller == states[i].controller && states[i + 1].last == states[i].last
  {
    RunKeepsInv(states, actions, accounts, i);
    hide C.Inv, LinkInv, OutcomeInv, InstanceInv, AgreeInv, PostedInv, Commanded;
  }

  /** Equal generations already say that the route is not requested: the test of both is redundant. */
  lemma EqualGenerationsAreNotRequested(states: seq<System>, actions: seq<Action>, accounts: nat, i: nat)
    requires Run(states, actions, accounts) && i < |states| && states[i].ui.Saw?
    ensures states[i].ui.generation == states[i].ui.revoked ==> !states[i].ui.requested
  {
    RunKeepsInv(states, actions, accounts, i);
    hide C.Inv, LinkInv, OutcomeInv, InstanceInv, AgreeInv, PostedInv, Run;
  }

  /**
   * A revoked activation is on its way to being cancelled from the moment the proxy is chosen until it is cancelled.
   */
  lemma RevocationIsTracked(states: seq<System>, actions: seq<Action>, accounts: nat, i: nat)
    requires Run(states, actions, accounts) && i < |states|
    requires states[i].route.phase == R.Disabled && Told(states[i]) == Some(true)
    ensures Tracked(states[i], states[i].route.generation)
    ensures states[i].service.manualGeneration == states[i].route.generation ==>
              Scheduled(states[i]) || Announced(states[i]) || !states[i].ui.Free?
  {
    RunKeepsInv(states, actions, accounts, i);
    hide C.Inv, LinkInv, OutcomeInv, InstanceInv, TokenInv, Run, Tracked;
  }

  /**
   * When the worker rests as well, the phase tells the truth: a local-ready route has exactly its one live tunnel,
   * which was found sound behind the very endpoint the route hands out; an
   * activation has been answered, and any other phase leaves no tunnel but one whose stop has just failed.
   */
  lemma PhaseTellsTheTruth(states: seq<System>, actions: seq<Action>, accounts: nat, i: nat)
    requires Run(states, actions, accounts) && i < |states| && UiAtRest(states[i]) && WorkerAtRest(states[i])
    ensures var s, c := states[i], states[i].controller;
            && s.route.phase != R.Starting
            && (s.route.phase == R.LocalReady ==>
                  && c.handle != 0 && C.Live(c.calls) == {c.handle}
                  && c.calls != [] && C.Sound(c.calls[|c.calls| - 1]) && c.calls[|c.calls| - 1].handle == c.handle
                  && s.route.endpoint == Some(c.calls[|c.calls| - 1].token))
            && (s.route.phase != R.LocalReady ==>
                  C.Live(c.calls) == {} || (C.Live(c.calls) == {c.handle} && C.Quiet(c)))
  {
    RunKeepsInv(states, actions, accounts, i);
    RouteAndTunnelAgree(states, actions, accounts, i);
    var s := states[i];
    hide Run, C.Inv, TokenInv, InstanceInv, PostedInv, AgreeInv, C.Quiet, R.Coherent;
    ControllerParts(s.controller);
  }
}
