/**
 * Process-local routing of every account: the loopback tunnel, the user's own proxy, or direct.  The class is the
 * program; the functions on `Route` say what each synchronized call does to the whole state.
 */
module MemoryRoute {
  import opened Common

  const MAX_LONG := 0x7fff_ffff_ffff_ffff

  datatype Phase = Disabled | Starting | LocalReady | Broken

  datatype Proxy = Proxy(enabled: bool, address: string, port: int, username: string, password: string, secret: string)

  /** Null strings become empty, and a proxy without an address is not enabled. */
  function NewProxy(enabled: bool, address: Option<string>, port: int, username: Option<string>,
      password: Option<string>, secret: Option<string>): Proxy
  {
    Proxy(enabled && address.Some?
        && address.value != "", OrEmpty(address), port, OrEmpty(username), OrEmpty(password), OrEmpty(secret))
  }

  function OrEmpty(s: Option<string>): string { if s.None? then "" else s.value }

  datatype Setting = Direct | Manual(proxy: Proxy) | Loopback(endpoint: Bytes)

  /** `settings` is what was last sent to the native side for each account. */
  datatype Route = Route(manual: Option<Proxy>, endpoint: Option<Bytes>, generation: nat, requested: bool, phase: Phase,
                         initialized: seq<bool>, settings: map<nat, Setting>)

  function Fresh(accounts: nat): Route { Route(None, None, 0, false, Disabled, seq(accounts, _ => false), map[]) }

  /** The setting an account is given in this state. */
  function Desired(r: Route): Setting {
    if r.endpoint.Some? && r.requested then Loopback(r.endpoint.value)
    else if r.manual.Some? && r.manual.value.enabled then Manual(r.manual.value)
    else Direct
  }

  function Applied(r: Route, account: nat): Route { r.(settings := r.settings[account := Desired(r)]) }

  /** The setting of this state sent to the initialized ones among the first `count` accounts. */
  function AppliedUpTo(r: Route, count: nat): Route
    requires count <= |r.initialized|
  {
    r.(settings := r.settings + map a: nat | a < count && r.initialized[a] :: Desired(r))
  }

  function AppliedToInitialized(r: Route): Route { AppliedUpTo(r, |r.initialized|) }

  lemma AppliedToOneMore(r: Route, count: nat)
    requires count < |r.initialized|
    ensures AppliedUpTo(r, count + 1) == if r.initialized[count] then Applied(AppliedUpTo(r, count), count)
                else AppliedUpTo(r, count)
  {
    hide Desired;
    assert Desired(AppliedUpTo(r, count)) == Desired(r)
        by { DesiredIgnoresSettings(r, AppliedUpTo(r, count).settings); }
  }

  /** The initialized accounts have been told, and no other. */
  lemma ToldBy(r: Route, next: Route)
    requires next == AppliedToInitialized(r)
    ensures forall a: nat :: a < |r.initialized| && r.initialized[a] ==>
              a in next.settings && next.settings[a] == Desired(r)
    ensures forall a: nat :: !(a < |r.initialized| && r.initialized[a]) ==>
              (a in next.settings <==> a in r.settings) && (a in next.settings ==> next.settings[a] == r.settings[a])
    ensures Desired(r) == if r.endpoint.Some? && r.requested then Loopback(r.endpoint.value)
              else if r.manual.Some? && r.manual.value.enabled then Manual(r.manual.value) else Direct
  {
  }

  lemma DesiredIgnoresSettings(r: Route, settings: map<nat, Setting>)
    ensures Desired(r.(settings := settings)) == Desired(r)
  {
  }

  // ----- the calls; `Failed` stands for an exception, and the state beside it is what the exception leaves

  function BeforeInitialize(r: Route, account: int, saved: Option<Proxy>): (Route, Result<()>) {
    if account < 0 || account >= |r.initialized| || (r.manual.None? && saved.None?) then (r, Failed)
    else (Applied(r.(manual := if r.manual.None? then saved else r.manual), account), Ok(()))
  }

  function AfterInitialize(r: Route, account: int): (Route, Result<()>) {
    if account < 0 || account >= |r.initialized| then (r, Failed)
    else (Applied(r.(initialized := r.initialized[account := true]), account), Ok(()))
  }

  function Begin(r: Route, enabled: bool, saved: Option<Proxy>): (Route, Result<nat>) {
    if r.generation >= MAX_LONG then (r, Failed)
    else
      var next := r.(generation := r.generation + 1);
      // The generation has advanced before the missing proxy is noticed.
      if r.manual.None? && saved.None? then (next, Failed)
      else (AppliedToInitialized(next.(manual := if r.manual.None? then saved else r.manual, requested := enabled,
                                       phase := if enabled then Starting else Disabled, endpoint := None)),
            Ok(r.generation + 1))
  }

  function ManualSelected(r: Route, selected: Option<Proxy>): (Route, Result<nat>) {
    if selected.None? || r.generation >= MAX_LONG then (r, Failed)
    else (AppliedToInitialized(r.(generation := r.generation + 1, manual := selected, requested := false,
                                  phase := Disabled, endpoint := None)),
          Ok(r.generation + 1))
  }

  function Ready(r: Route, expected: int, token: Option<Bytes>): (Route, bool) {
    if r.generation != expected || !r.requested || token.None? || !ValidToken(token.value) then (r, false)
    else (AppliedToInitialized(r.(endpoint := token, phase := LocalReady)), true)
  }

  function Fail(r: Route, expected: int): (Route, bool) {
    if r.generation != expected || !r.requested then (r, false)
    else (AppliedToInitialized(r.(requested := false, phase := Broken, endpoint := None)), true)
  }

  // ----- the program

  class Coordinator {
    var manual: Option<Proxy>
    var endpoint: Option<Bytes>
    var generation: nat
    var requested: bool
    var phase: Phase
    const initialized: array<bool>
    /** The native side: the last setting received for each account. */
    var settings: map<nat, Setting>

    ghost function State(): Route
      reads this, initialized
    {
      Route(manual, endpoint, generation, requested, phase, initialized[..], settings)
    }

    /** The native side was told this of exactly the initialized accounts; the others keep what they had. */
    twostate predicate Told(setting: Setting)
      reads this, initialized
    {
      && (forall a: nat :: a < initialized.Length && initialized[a] ==> a in settings && settings[a] == setting)
      && (forall a: nat :: !(a < initialized.Length && initialized[a]) ==>
            (a in settings <==> a in old(settings)) && (a in settings ==> settings[a] == old(settings)[a]))
    }

    /** Without a tunnel: the user's own proxy if it is enabled, otherwise none. */
    ghost function Fallback(): Setting
      reads `manual
    {
      if manual.Some? && manual.value.enabled then Manual(manual.value) else Direct
    }

    constructor (accounts: nat)
      requires 0 < accounts <= 100
      ensures State() == Fresh(accounts) && fresh(initialized)
    {
      initialized := new bool[accounts](_ => false);
      manual, endpoint, generation, requested, phase, settings := None, None, 0, false, Disabled, map[];
    }

    method Apply(account: nat)
      modifies `settings
      ensures State() == Applied(old(State()), account)
    {
      if endpoint.Some? && requested {
        settings := settings[account := Loopback(endpoint.value)];
      } else if manual.Some? && manual.value.enabled {
        settings := settings[account := Manual(manual.value)];
      } else {
        settings := settings[account := Direct];
      }
    }

    method ApplyInitialized()
      modifies `settings
      ensures State() == AppliedToInitialized(old(State()))
      ensures Told(if endpoint.Some? && requested then Loopback(endpoint.value) else Fallback())
    {
      ghost var before := State();
      ApplyEach();
      ToldBy(before, State());
      hide AppliedToInitialized, Desired;
    }

    method ApplyEach()
      modifies `settings
      ensures State() == AppliedToInitialized(old(State()))
    {
      ghost var before := State();
      assert before == AppliedUpTo(before, 0) by { assert before.settings == AppliedUpTo(before, 0).settings; }
      assert AppliedUpTo(before, initialized.Length) == AppliedToInitialized(before);
      hide *;
      for account := 0 to initialized.Length
        invariant State() == AppliedUpTo(before, account)
      {
        AppliedToOneMore(before, account);
        if initialized[account] {
          Apply(account);
        }
      }
    }

    method CallBeforeInitialize(account: int, saved: Option<Proxy>) returns (r: Result<()>)
      modifies this
      ensures (State(), r) == BeforeInitialize(old(State()), account, saved)
      ensures r.Ok? <==> 0 <= account < initialized.Length && (old(manual).Some? || saved.Some?)
      ensures r.Ok? ==> manual == if old(manual).Some? then old(manual) else saved
      ensures r.Ok? ==>
                settings == old(settings)[account := if endpoint.Some? && requested then Loopback(endpoint.value)
                                          else Fallback()]
      ensures !r.Ok? ==> State() == old(State())
    {
      if account < 0 || account >= initialized.Length {
        return Failed;
      }
      if manual.None? {
        if saved.None? {
          return Failed;
        }
        manual := saved;
      }
      Apply(account);
      return Ok(());
    }

    method CallAfterInitialize(account: int) returns (r: Result<()>)
      modifies this, initialized
      ensures (State(), r) == AfterInitialize(old(State()), account)
      ensures r.Ok? <==> 0 <= account < initialized.Length
      ensures r.Ok? ==>
                && initialized[..] == old(initialized[..])[account := true]
                && settings == old(settings)[account := if endpoint.Some? && requested then Loopback(endpoint.value)
                                             else Fallback()]
    {
      if account < 0 || account >= initialized.Length {
        return Failed;
      }
      initialized[account] := true;
      Apply(account);
      return Ok(());
    }

    method CallBegin(enabled: bool, saved: Option<Proxy>) returns (r: Result<nat>)
      modifies this
      ensures (State(), r) == Begin(old(State()), enabled, saved)
      ensures r.Ok? <==> old(generation) < MAX_LONG && (old(manual).Some? || saved.Some?)
      ensures generation == if old(generation) < MAX_LONG then old(generation) + 1 else old(generation)
      ensures r.Ok? ==>
                && r.value == generation && requested == enabled && phase == (if enabled then Starting else Disabled)
                && endpoint.None? && manual == (if old(manual).Some? then old(manual) else saved) && Told(Fallback())
    {
      hide AppliedToInitialized;
      if generation >= MAX_LONG {
        return Failed;
      }
      generation := generation + 1;
      if manual.None? {
        if saved.None? {
          return Failed;
        }
        manual := saved;
      }
      requested := enabled;
      phase := if enabled then Starting else Disabled;
      endpoint := None;
      ApplyInitialized();
      return Ok(generation);
    }

    method CallManualSelected(selected: Option<Proxy>) returns (r: Result<nat>)
      modifies this
      ensures (State(), r) == ManualSelected(old(State()), selected)
      ensures r.Ok? <==> selected.Some? && old(generation) < MAX_LONG
      ensures r.Ok? ==>
                && r.value == generation == old(generation) + 1 && manual == selected && !requested && phase.Disabled?
                && endpoint.None? && Told(Fallback())
      ensures !r.Ok? ==> State() == old(State())
    {
      hide AppliedToInitialized;
      if selected.None? || generation >= MAX_LONG {
        return Failed;
      }
      generation := generation + 1;
      manual, requested, phase, endpoint := selected, false, Disabled, None;
      ApplyInitialized();
      return Ok(generation);
    }

    method CallReady(expected: int, token: Option<Bytes>) returns (accepted: bool)
      modifies this
      ensures (State(), accepted) == Ready(old(State()), expected, token)
      ensures accepted <==> generation == expected && old(requested) && token.Some? && ValidToken(token.value)
      ensures accepted ==> endpoint == token && phase.LocalReady? && requested && Told(Loopback(token.value))
      ensures manual == old(manual) && generation == old(generation)
      ensures !accepted ==> State() == old(State())
    {
      hide AppliedToInitialized;
      if generation != expected || !requested || token.None? || !ValidToken(token.value) {
        return false;
      }
      endpoint, phase := token, LocalReady;
      ApplyInitialized();
      return true;
    }

    method CallFailed(expected: int) returns (accepted: bool)
      modifies this
      ensures (State(), accepted) == Fail(old(State()), expected)
      ensures accepted <==> generation == expected && old(requested)
      ensures accepted ==> !requested && phase.Broken? && endpoint.None? && Told(Fallback())
      ensures manual == old(manual) && generation == old(generation)
      ensures !accepted ==> State() == old(State())
    {
      hide AppliedToInitialized;
      if generation != expected || !requested {
        return false;
      }
      requested, phase, endpoint := false, Broken, None;
      ApplyInitialized();
      return true;
    }
  }

  // ----- what the calls keep

  /** The three flags agree, and a proxy is known once anything was requested. */
  ghost predicate Coherent(r: Route) {
    && (r.endpoint.Some? <==> r.phase == LocalReady) && (r.endpoint.Some? ==> ValidToken(r.endpoint.value))
    && (r.requested <==> r.phase == Starting || r.phase == LocalReady)
    && (r.phase != Disabled ==> r.manual.Some?)
  }

  /** Every initialized account was last told what the phase calls for. */
  ghost predicate Synced(r: Route) {
    forall a: nat :: a < |r.initialized| && r.initialized[a] ==>
      a in r.settings && r.settings[a] ==
        if r.phase == LocalReady && r.endpoint.Some? then Loopback(r.endpoint.value)
        else if r.manual.Some? && r.manual.value.enabled then Manual(r.manual.value) else Direct
  }

  datatype Call =
    | CallBeforeInitialize(account: int, saved: Option<Proxy>)
    | CallAfterInitialize(account: int)
    | CallBegin(enabled: bool, saved: Option<Proxy>)
    | CallManualSelected(selected: Option<Proxy>)
    | CallReady(expected: int, token: Option<Bytes>)
    | CallFailed(expected: int)

  function Step(r: Route, call: Call): Route {
    match call
    case CallBeforeInitialize(account, saved) => BeforeInitialize(r, account, saved).0
    case CallAfterInitialize(account) => AfterInitialize(r, account).0
    case CallBegin(enabled, saved) => Begin(r, enabled, saved).0
    case CallManualSelected(selected) => ManualSelected(r, selected).0
    case CallReady(expected, token) => Ready(r, expected, token).0
    case CallFailed(expected) => Fail(r, expected).0
  }

  function Run(r: Route, calls: seq<Call>): Route {
    if calls == [] then r else Step(Run(r, calls[..|calls| - 1]), calls[|calls| - 1])
  }

  /**
   * The one call that can leave an account behind: the first saved proxy arrives through `beforeInitialize`
   * while another account is already initialized, and only the named account is told.
   */
  ghost predicate LeavesBehind(r: Route, call: Call) {
    && call.CallBeforeInitialize? && 0 <= call.account < |r.initialized|
    && r.manual.None? && call.saved.Some? && call.saved.value.enabled
    && exists a: nat :: a < |r.initialized| && a != call.account && r.initialized[a]
  }

  lemma StepIsCoherent(r: Route, call: Call)
    requires Coherent(r)
    ensures Coherent(Step(r, call)) && |Step(r, call).initialized| == |r.initialized|
    ensures Step(r, call).generation >= r.generation
  {
  }

  lemma AppliedIsSynced(r: Route)
    requires Coherent(r)
    ensures Synced(AppliedToInitialized(r))
  {
  }

  /** A call keeps every account in step with the phase if and only if it does not leave one behind. */
  lemma StepIsSynced(r: Route, call: Call)
    requires Coherent(r) && Synced(r)
    ensures Synced(Step(r, call)) <==> !LeavesBehind(r, call)
  {
    hide ValidToken;
    match call {
      case CallBeforeInitialize(account, saved) => FirstProxyMayLeaveBehind(r, account, saved);
      case CallAfterInitialize(account) =>
      case CallBegin(enabled, saved) =>
        hide AppliedToInitialized;
        var manual := if r.manual.None? then saved else r.manual;
        if manual.Some? {
          AppliedIsSynced(r.(generation := r.generation + 1, manual := manual, requested := enabled,
                             phase := if enabled then Starting else Disabled, endpoint := None));
        }
      case CallManualSelected(selected) =>
        hide AppliedToInitialized;
        AppliedIsSynced(r.(generation := r.generation + 1, manual := selected, requested := false, phase := Disabled,
            endpoint := None));
      case CallReady(expected, token) => ReadyIsSynced(r, expected, token);
      case CallFailed(expected) =>
        hide AppliedToInitialized;
        if Fail(r, expected).1 {
          AppliedIsSynced(r.(requested := false, phase := Broken, endpoint := None));
        }
    }
  }

  lemma ReadyIsSynced(r: Route, expected: int, token: Option<Bytes>)
    requires Coherent(r) && Synced(r)
    ensures Synced(Ready(r, expected, token).0)
  {
    hide AppliedToInitialized, Synced;
    if Ready(r, expected, token).1 {
      AppliedIsSynced(r.(endpoint := token, phase := LocalReady));
    }
  }

  lemma FirstProxyMayLeaveBehind(r: Route, account: int, saved: Option<Proxy>)
    requires Coherent(r) && Synced(r)
    ensures Synced(BeforeInitialize(r, account, saved).0) <==> !LeavesBehind(r, CallBeforeInitialize(account, saved))
  {
    hide ValidToken;
    if LeavesBehind(r, CallBeforeInitialize(account, saved)) {
      var a: nat :| a < |r.initialized| && a != account && r.initialized[a];
      assert r.settings[a] == Direct && BeforeInitialize(r, account, saved).0.settings[a] == Direct;
    }
  }

  /** `afterInitialize` is called only once a proxy is known, which `beforeInitialize` of the same account ensures. */
  ghost predicate Orderly(r: Route, calls: seq<Call>) {
    forall i :: 0 <= i < |calls| && calls[i].CallAfterInitialize? ==> Run(r, calls[..i]).manual.Some?
  }

  lemma {:induction false} RunIsCoherent(accounts: nat, calls: seq<Call>)
    ensures Coherent(Run(Fresh(accounts), calls)) && |Run(Fresh(accounts), calls).initialized| == accounts
  {
    if calls != [] {
      RunIsCoherent(accounts, calls[..|calls| - 1]);
      StepIsCoherent(Run(Fresh(accounts), calls[..|calls| - 1]), calls[|calls| - 1]);
    }
  }

  /** An account is initialized only after a proxy is known. */
  ghost predicate Known(r: Route) {
    (exists a: nat :: a < |r.initialized| && r.initialized[a]) ==> r.manual.Some?
  }

  lemma OrderlyStep(r: Route, call: Call)
    requires Coherent(r) && Synced(r) && Known(r) && (call.CallAfterInitialize? ==> r.manual.Some?)
    ensures Synced(Step(r, call)) && Known(Step(r, call))
  {
    StepIsSynced(r, call);
    hide Synced, ValidToken, Desired;
  }

  /** Over every orderly run each initialized account follows the phase, whatever calls fail or come late. */
  lemma {:induction false} RouteRefinesPhase(accounts: nat, calls: seq<Call>)
    requires Orderly(Fresh(accounts), calls)
    ensures Synced(Run(Fresh(accounts), calls)) && Known(Run(Fresh(accounts), calls))
  {
    if calls != [] {
      hide Step, Synced, Known, Coherent;
      var earlier, call := calls[..|calls| - 1], calls[|calls| - 1];
      assert forall i :: 0 <= i < |earlier| ==> earlier[..i] == calls[..i] && earlier[i] == calls[i];
      RouteRefinesPhase(accounts, earlier);
      RunIsCoherent(accounts, earlier);
      OrderlyStep(Run(Fresh(accounts), earlier), call);
    }
  }

  /**
   * Without that order the refinement fails: two accounts, the first initialized before any proxy is known, and then an
   * enabled one.
   */
  lemma UnorderedRunLeavesAccountBehind()
    ensures exists calls :: !Synced(Run(Fresh(2), calls))
  {
    var proxy := NewProxy(true, Some("host"), 1, None, None, None);
    var first, second := CallAfterInitialize(0), CallBeforeInitialize(1, Some(proxy));
    var one := Step(Fresh(2), first);
    var two := Step(one, second);
    assert one.initialized[0] && one.settings[0] == Direct && one.manual.None?;
    assert two.initialized[0] && two.settings[0] == Direct && two.manual == Some(proxy);
    assert !Synced(two);
    hide Step, Synced, Fresh;
    RunOfTwo(Fresh(2), first, second);
  }

  lemma RunOfTwo(r: Route, first: Call, second: Call)
    ensures Run(r, [first, second]) == Step(Step(r, first), second)
  {
    assert [first, second][..1] == [first] && [first][..0] == [];
    assert Run(r, [first]) == Step(r, first);
  }

  lemma {:induction false} GenerationsGrow(r: Route, calls: seq<Call>)
    requires Coherent(r)
    ensures Run(r, calls).generation >= r.generation && Coherent(Run(r, calls))
  {
    if calls != [] {
      GenerationsGrow(r, calls[..|calls| - 1]);
      StepIsCoherent(Run(r, calls[..|calls| - 1]), calls[|calls| - 1]);
    }
  }

  /** Once an activation is followed by another one or by a manual choice, its completions are dead for good. */
  lemma SupersededActivationIsDead(r: Route, enabled: bool, saved: Option<Proxy>, between: seq<Call>, newer: Call,
      after: seq<Call>, token: Option<Bytes>)
    requires Coherent(r) && Begin(r, enabled, saved).1.Ok?
    requires newer.CallBegin? || (newer.CallManualSelected? && newer.selected.Some?)
    requires Run(Begin(r, enabled, saved).0, between).generation < MAX_LONG
    ensures var expected := Begin(r, enabled, saved).1.value;
            var late := Run(Step(Run(Begin(r, enabled, saved).0, between), newer), after);
            Ready(late, expected, token) == (late, false) && Fail(late, expected) == (late, false)
  {
    var begun := Begin(r, enabled, saved).0;
    StepIsCoherent(r, CallBegin(enabled, saved));
    GenerationsGrow(begun, between);
    var middle := Run(begun, between);
    StepIsCoherent(middle, newer);
    GenerationsGrow(Step(middle, newer), after);
  }
}
