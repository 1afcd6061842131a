/**
 * What retiring a generation comes to on Android: as long as nothing fails, whatever no account refers to any more is
 * destroyed by the time the worker is idle, and no tombstone outlives it.
 */
module AndroidArchiveCleanup {
  import opened Common
  import opened AndroidArchiveCoordinator

  /** The destruction of the generation is under way, queued, or about to be queued by a logout. */
  predicate Awaited(s: State, g: nat) {
    || (CleanupJob in s.queue && g in s.durable.tombs.mem) || DestroyJob(g) in s.queue
    || (s.work.Cleaning? && g in s.work.left)
    || (s.work.Destroying? && (s.work.generation == g || (s.work.next.CleanRest? && g in s.work.next.left)))
    || (s.work.Abandoning? && s.work.generation == g)
    || ((s.logout.Removing? || s.logout.Queueing?) && s.logout.generation == Some(g))
  }

  /** An open is making the generation. */
  predicate InTheMaking(w: Work, g: nat) { (w.Building? || w.Offering? || w.Publishing?) && w.generation == g }

  /** The generation is in use, in the making or waiting for its destruction, or nothing is left of it. */
  ghost predicate Accounted(s: State, g: nat) {
    Refers(s.durable, g) || InTheMaking(s.work, g) || Awaited(s, g) || (g !in s.durable.keys && g !in s.durable.dbs)
  }

  ghost predicate Orderly(s: State) {
    var d, w := s.durable, s.work;
    && (forall g :: g in d.tombs.mem ==> Awaited(s, g))
    && (s.logout.Removing? ==>
          s.logout.account < |d.prefs| && s.logout.generation == d.prefs[s.logout.account].mem.generation)
    && (w.Abandoning? ==>
          w.token.account < |d.prefs| && d.prefs[w.token.account].mem.generation == Some(w.generation))
    && (w.Destroying? && (w.phase.DropDb? || w.phase.Unmark?) ==> w.generation !in d.keys)
    && (w.Destroying? && w.phase.Unmark? ==> w.generation !in d.dbs)
  }

  /** A removal from the preferences or a deletion fails. */
  predicate Fails(s: State, a: Action) {
    || (a.Abandon? && !a.ok)
    || (a.DestroyStep? && !a.ok && s.work.Destroying?
        && (s.work.phase.Unlink? || s.work.phase.DropKey? || s.work.phase.DropDb?))
  }

  /** A step of the host leaves every generation awaited, and so is the one a logout is retiring. */
  lemma AwaitedOnHost(s: State, a: Action, g: nat)
    requires WellFormed(s) && Enabled(s, a) && OfHost(a)
    ensures Awaited(s, g) ==> Awaited(Step(s, a), g)
    ensures (a.LogoutMark? || a.LogoutRemove?) && s.logout.generation == Some(g) ==> Awaited(Step(s, a), g)
  {
    hide WellFormed;
  }

  lemma OrderlyStepOfHost(s: State, a: Action)
    requires MemInv(s) && Orderly(s) && Enabled(s, a) && OfHost(a)
    ensures Orderly(Step(s, a))
  {
    forall g | g in Step(s, a).durable.tombs.mem ensures Awaited(Step(s, a), g) {
      AwaitedOnHost(s, a, g);
    }
    hide Awaited, StoreInv, DestroyInv, MakeInv, Refers;
  }

  /** Destroying one generation leaves every other one awaited, and that one until its tombstone goes. */
  lemma AwaitedInDestroy(s: State, t: State, ok: bool, g: nat)
    requires s.work.Destroying? && t == AfterDestroyStep(s, ok) && !Fails(s, DestroyStep(ok))
    requires Awaited(s, g) || g == s.work.generation
    ensures Awaited(t, g) || (s.work.phase.Unmark? && g == s.work.generation && g !in t.durable.tombs.mem)
  {
  }

  lemma OrderlyStepOfDestroy(s: State, ok: bool)
    requires MemInv(s) && Orderly(s) && Enabled(s, DestroyStep(ok)) && !Fails(s, DestroyStep(ok))
    ensures Orderly(Step(s, DestroyStep(ok)))
  {
    DestroyStepIs(s, ok);
    var t := Step(s, DestroyStep(ok));
    forall g | g in t.durable.tombs.mem ensures Awaited(t, g) {
      MarkedInDestroy(s, ok, g);
      AwaitedInDestroy(s, t, ok, g);
    }
    hide Awaited, StoreInv, DestroyInv, MakeInv, Refers, Step, Enabled, WellFormed;
  }

  lemma MarkedInDestroy(s: State, ok: bool, g: nat)
    requires s.work.Destroying? && g in AfterDestroyStep(s, ok).durable.tombs.mem
    ensures g in s.durable.tombs.mem || g == s.work.generation
  {
  }

  /** An open leaves every generation awaited, and one that it retires is. */
  lemma AwaitedInOpen(s: State, a: Action, g: nat)
    requires WellFormed(s) && Enabled(s, a) && Opening(a) && !Fails(s, a)
    ensures Awaited(s, g) || (g in Step(s, a).durable.tombs.mem && g !in s.durable.tombs.mem) ==> Awaited(Step(s, a), g)
  {
    hide HostStep, AfterDestroyStep, AfterPop, Born, IsCurrent, WellFormed;
  }

  lemma OrderlyStepOfOpen(s: State, a: Action)
    requires MemInv(s) && Orderly(s) && Enabled(s, a) && Opening(a) && !Fails(s, a)
    ensures Orderly(Step(s, a))
  {
    forall g | g in Step(s, a).durable.tombs.mem ensures Awaited(Step(s, a), g) {
      AwaitedInOpen(s, a, g);
    }
    hide Awaited;
    hide StoreInv, DestroyInv, MakeInv, Refers, HostStep, AfterDestroyStep, AfterPop, Born, IsCurrent;
  }

  lemma OrderlyStepOfQueue(s: State, a: Action)
    requires MemInv(s) && Orderly(s) && Enabled(s, a) && (a.Pop? || a.PickTomb? || a.CleanupDone?)
    ensures Orderly(Step(s, a))
  {
    hide StoreInv, DestroyInv, MakeInv, Refers, HostStep, AfterDestroyStep, Born;
  }

  /** A generation that is no longer referred to was taken out of some account's preferences. */
  lemma RefersOn(d: Durable, e: Durable, g: nat)
    requires |e.prefs| == |d.prefs| && Refers(d, g)
    ensures Refers(e, g) || exists x :: 0 <= x < |d.prefs| && e.prefs[x].mem != d.prefs[x].mem
                                        && d.prefs[x].mem.generation == Some(g)
  {
    var x :| 0 <= x < |d.prefs| && d.prefs[x].mem.generation == Some(g);
    assert e.prefs[x].mem == d.prefs[x].mem ==> e.prefs[x].mem.generation == Some(g);
  }

  lemma AccountedStepOfHost(s: State, a: Action, g: nat)
    requires MemInv(s) && Orderly(s) && Enabled(s, a) && OfHost(a) && Accounted(s, g)
    ensures Accounted(Step(s, a), g)
  {
    HostStepIsWellFormed(s, a);
    HostLeavesWorker(s, a);
    AwaitedOnHost(s, a, g);
    if Refers(s.durable, g) {
      RefersOn(s.durable, Step(s, a).durable, g);
    }
    hide Awaited, StoreInv, DestroyInv, MakeInv, Refers;
  }

  lemma AccountedStepOfDestroy(s: State, ok: bool, g: nat)
    requires MemInv(s) && Orderly(s) && Enabled(s, DestroyStep(ok)) && !Fails(s, DestroyStep(ok)) && Accounted(s, g)
    ensures Accounted(Step(s, DestroyStep(ok)), g)
  {
    DestroyStepIsWellFormed(s, ok);
    if Refers(s.durable, g) {
      RefersOn(s.durable, Step(s, DestroyStep(ok)).durable, g);
    }
    DestroyStepIs(s, ok);
    hide StoreInv, DestroyInv, MakeInv, LockInv, WellFormed, MemInv, Step, Enabled, Refers, InTheMaking;
    if Awaited(s, g) || g == s.work.generation {
      AwaitedInDestroy(s, Step(s, DestroyStep(ok)), ok, g);
    }
    hide Awaited;
  }

  lemma AccountedStepOfOpen(s: State, a: Action, g: nat)
    requires MemInv(s) && Orderly(s) && Enabled(s, a) && Opening(a) && !Fails(s, a) && Accounted(s, g)
    ensures Accounted(Step(s, a), g)
  {
    OtherStepIsWellFormed(s, a);
    if Refers(s.durable, g) {
      RefersOn(s.durable, Step(s, a).durable, g);
    }
    if a.Publish? {
      PublishedRefers(s, a.ok);
    }
    AwaitedInOpen(s, a, g);
    hide Awaited, StoreInv, DestroyInv, LockInv, HostStep, AfterDestroyStep, AfterPop, Born, IsCurrent, Refers;
    if a.Abandon? {
      AbandonAwaits(s, a.ok);
    } else if a.Publish? {
      PublishAwaits(s, a.ok);
    } else if a.Build? || a.Offer? {
      MakingAwaits(s, a);
    }
    hide Orderly;
  }

  lemma AbandonAwaits(s: State, ok: bool)
    requires WellFormed(s) && Enabled(s, Abandon(ok)) && ok
    ensures Awaited(Step(s, Abandon(ok)), s.work.generation)
  {
  }

  lemma PublishAwaits(s: State, ok: bool)
    requires WellFormed(s) && Enabled(s, Publish(ok))
    ensures !ok ==> Awaited(Step(s, Publish(ok)), s.work.generation)
  {
  }

  lemma MakingAwaits(s: State, a: Action)
    requires WellFormed(s) && Enabled(s, a) && (a.Build? || a.Offer?)
    ensures InTheMaking(Step(s, a).work, s.work.generation) || Awaited(Step(s, a), s.work.generation)
  {
  }

  lemma PublishedRefers(s: State, ok: bool)
    requires WellFormed(s) && Enabled(s, Publish(ok))
    ensures Refers(Step(s, Publish(ok)).durable, s.work.generation)
  {
    assert Step(s, Publish(ok)).durable.prefs[s.work.token.account].mem.generation == Some(s.work.generation);
  }

  lemma AccountedStepOfQueue(s: State, a: Action, g: nat)
    requires MemInv(s) && Orderly(s) && Enabled(s, a) && (a.Pop? || a.PickTomb? || a.CleanupDone?) && Accounted(s, g)
    ensures Accounted(Step(s, a), g)
  {
    hide StoreInv, DestroyInv, MakeInv, Refers, HostStep, AfterDestroyStep, Born;
  }

  lemma OrderlyStep(s: State, a: Action, g: nat)
    requires MemInv(s) && Orderly(s) && Enabled(s, a) && !a.Crash? && !Fails(s, a)
    ensures Orderly(Step(s, a)) && (Accounted(s, g) ==> Accounted(Step(s, a), g))
  {
    hide MemInv, Orderly, Accounted, Step, Enabled, Fails;
    if OfHost(a) {
      OrderlyStepOfHost(s, a);
      if Accounted(s, g) { AccountedStepOfHost(s, a, g); }
    } else if a.DestroyStep? {
      OrderlyStepOfDestroy(s, a.ok);
      if Accounted(s, g) { AccountedStepOfDestroy(s, a.ok, g); }
    } else if Opening(a) {
      OrderlyStepOfOpen(s, a);
      if Accounted(s, g) { AccountedStepOfOpen(s, a, g); }
    } else {
      OrderlyStepOfQueue(s, a);
      if Accounted(s, g) { AccountedStepOfQueue(s, a, g); }
    }
  }

  /** A process begins by queueing the destruction of all it finds retired. */
  lemma BornIsOrderly(d: Durable, owners: seq<nat>, unlocked: bool)
    ensures Orderly(Born(d, owners, unlocked))
  {
    assert CleanupJob in Born(d, owners, unlocked).queue;
  }

  ghost predicate Begins(states: seq<State>, actions: seq<Action>, p: nat)
    requires |states| == |actions| + 1 && p < |states|
  {
    p == 0 || actions[p - 1].Crash?
  }

  lemma BeginsOrderly(states: seq<State>, actions: seq<Action>, p: nat)
    requires Run(states, actions) && p < |states| && Begins(states, actions, p)
    ensures Orderly(states[p])
  {
    hide Orderly, WellFormed, StoreInv;
    if p == 0 {
      var d: Durable, owners: seq<nat>, unlocked: bool :|
        |owners| == |d.prefs| && states[0] == Born(d, owners, unlocked) && StoreInv(states[0].durable);
      hide Born;
      BornIsOrderly(d, owners, unlocked);
    } else {
      StepOfRun(states, actions, p - 1);
      CrashIsBirth(states[p - 1], actions[p - 1]);
      BornIsOrderly(states[p - 1].durable, actions[p - 1].owners, actions[p - 1].unlocked);
    }
  }

  lemma CrashIsBirth(s: State, a: Action)
    requires WellFormed(s) && Enabled(s, a) && a.Crash?
    ensures Step(s, a) == Born(s.durable, a.owners, a.unlocked)
  {
  }

  lemma {:induction false} OrderlyOn(states: seq<State>, actions: seq<Action>, p: nat, i: nat)
    requires Run(states, actions) && p <= i < |states| && Begins(states, actions, p)
    requires forall k :: p <= k < i ==> !actions[k].Crash? && !Fails(states[k], actions[k])
    ensures Orderly(states[i])
    decreases i
  {
    hide Orderly, Fails, Begins, WellFormed, Step, Enabled, StoreInv, Born, Inv, MemInv;
    if p == i {
      BeginsOrderly(states, actions, p);
    } else {
      OrderlyOn(states, actions, p, i - 1);
      StepOfRun(states, actions, i - 1);
      RunKeepsInv(states, actions, i - 1);
      PartsOfInv(states[i - 1]);
      OrderlyStep(states[i - 1], actions[i - 1], 0);
    }
  }

  lemma {:induction false} AccountedOn(states: seq<State>, actions: seq<Action>, p: nat, q: nat, i: nat, g: nat)
    requires Run(states, actions) && p <= q <= i < |states| && Begins(states, actions, p) && Accounted(states[q], g)
    requires forall k :: p <= k < i ==> !actions[k].Crash? && !Fails(states[k], actions[k])
    ensures Accounted(states[i], g)
    decreases i
  {
    hide Orderly, Accounted, Fails, Begins, WellFormed, Step, Enabled, StoreInv, Born, Inv, MemInv;
    if q < i {
      AccountedOn(states, actions, p, q, i - 1, g);
      OrderlyOn(states, actions, p, i - 1);
      StepOfRun(states, actions, i - 1);
      RunKeepsInv(states, actions, i - 1);
      PartsOfInv(states[i - 1]);
      OrderlyStep(states[i - 1], actions[i - 1], g);
    }
  }

  /** The worker has nothing to do, and no logout is on its way. */
  predicate Settled(s: State) { s.work.Resting? && s.queue == [] && s.logout.Idle? }

  lemma SettledIsClean(s: State, g: nat)
    requires Settled(s) && Orderly(s)
    ensures s.durable.tombs.mem == {}
    ensures Accounted(s, g) ==> Refers(s.durable, g) || (g !in s.durable.keys && g !in s.durable.dbs)
  {
    assert forall h :: h in s.durable.tombs.mem ==> Awaited(s, h);
    hide Refers;
  }

  /**
   * In a process in which no removal and no deletion fails, whenever the worker has nothing to do no generation is
   * retired, and whatever an account ever referred to, or a tombstone ever named, is referred to again or destroyed:
   * its key and its database are gone.  So nothing that was logged out, cleared or displaced stays behind.
   */
  lemma RetiredIsDestroyed(states: seq<State>, actions: seq<Action>, p: nat, q: nat, i: nat, g: nat)
    requires Run(states, actions) && p <= q <= i < |states| && Begins(states, actions, p)
    requires forall k :: p <= k < i ==> !actions[k].Crash? && !Fails(states[k], actions[k])
    requires Settled(states[i]) && (Refers(states[q].durable, g) || g in states[q].durable.tombs.mem)
    ensures states[i].durable.tombs.mem == {}
    ensures Refers(states[i].durable, g) || (g !in states[i].durable.keys && g !in states[i].durable.dbs)
  {
    hide Fails, Begins, Run, Awaited, InTheMaking, Refers, Settled;
    OrderlyOn(states, actions, p, q);
    assert Accounted(states[q], g);
    OrderlyOn(states, actions, p, i);
    AccountedOn(states, actions, p, q, i, g);
    hide *;
    SettledIsClean(states[i], g);
  }

  /** So is a generation that was drawn but could not be published. */
  lemma UnpublishedIsDestroyed(states: seq<State>, actions: seq<Action>, p: nat, q: nat, i: nat, g: nat)
    requires Run(states, actions) && p <= q < i < |states| && Begins(states, actions, p)
    requires forall k :: p <= k < i ==> !actions[k].Crash? && !Fails(states[k], actions[k])
    requires Settled(states[i]) && actions[q].Draw? && actions[q].generation == g && states[q + 1].work.Building?
    ensures Refers(states[i].durable, g) || (g !in states[i].durable.keys && g !in states[i].durable.dbs)
  {
    StepOfRun(states, actions, q);
    DrawnIsMade(states[q], actions[q]);
    hide *;
    OrderlyOn(states, actions, p, i);
    AccountedOn(states, actions, p, q + 1, i, g);
    SettledIsClean(states[i], g);
  }

  lemma DrawnIsMade(s: State, a: Action)
    requires WellFormed(s) && Enabled(s, a) && a.Draw? && Step(s, a).work.Building?
    ensures Accounted(Step(s, a), a.generation)
  {
    hide Refers, Awaited;
  }

  // ----- when nothing fails an operation is served

  lemma OneMore(s: State, actions: seq<Action>, t: State, a: Action) returns (u: State)
    requires Leads(s, actions, t) && WellFormed(t) && Enabled(t, a)
    ensures u == Step(t, a) && Leads(s, actions + [a], u)
  {
    LeadsFurther(s, actions, t, a);
    u := Step(t, a);
  }

  /** An idle worker with one operation of a current session, up to where it holds the lock. */
  lemma EnterRun(s: State, t: Token) returns (u: State)
    requires AtRest(s) && s.queue == [OperateJob(t)] && IsCurrent(s.session, t) && t.account < |s.durable.prefs|
    ensures Leads(s, [] + [Pop] + [Start] + [EnterOpen], u) && WellFormed(u)
    ensures u == s.(queue := [], holder := Worker, work := Inside(t))
  {
    hide Leads, IsCurrent;
    StaysPut(s);
    u := OneMore(s, [], s, Pop);
    u := OneMore(s, [] + [Pop], u, Start);
    u := OneMore(s, [] + [Pop] + [Start], u, EnterOpen);
  }

  /** An account that has an archive of its own, whole and not retired, works on it. */
  lemma OwnArchiveIsUsed(s: State, t: Token, generation: nat)
    requires AtRest(s) && s.queue == [OperateJob(t)] && IsCurrent(s.session, t) && t.account < |s.durable.prefs|
    requires s.durable.prefs[t.account].mem == Prefs(Some(generation), t.owner)
    requires generation !in s.durable.tombs.mem && generation in s.durable.keys && generation in s.durable.dbs
    ensures exists actions :: Leads(s, actions, s.(queue := [], work := Operating(t, generation)))
  {
    hide Leads, IsCurrent;
    var u := EnterRun(s, t);
    var actions := [] + [Pop] + [Start] + [EnterOpen];
    u := OneMore(s, actions, u, Inspect(true));
    u := OneMore(s, actions + [Inspect(true)], u, Load(true));
    u := OneMore(s, actions + [Inspect(true)] + [Load(true)], u, Recheck);
    assert u == s.(queue := [], work := Operating(t, generation));
  }

  /** An account without an archive gets a new one, in its own name, and works on it. */
  lemma NewArchiveIsUsed(s: State, t: Token, drawn: nat)
    requires AtRest(s) && s.queue == [OperateJob(t)] && IsCurrent(s.session, t) && t.account < |s.durable.prefs|
    requires s.durable.prefs[t.account].mem == NOTHING && drawn !in s.durable.homes
    ensures var d := s.durable;
            var mine := Prefs(Some(drawn), t.owner);
            var made := d.(keys := d.keys + {drawn}, dbs := d.dbs + {drawn}, homes := d.homes[drawn := t.account],
                           prefs := d.prefs[t.account := File(mine, mine)]);
            exists actions :: Leads(s, actions, s.(durable := made, queue := [], work := Operating(t, drawn)))
  {
    hide Leads, IsCurrent;
    var u := EnterRun(s, t);
    var actions := [] + [Pop] + [Start] + [EnterOpen];
    u := OneMore(s, actions, u, Inspect(true));
    assert u == s.(queue := [], work := Drawing(t));
    actions := actions + [Inspect(true)];
    u := OneMore(s, actions, u, Draw(drawn, true));
    actions := actions + [Draw(drawn, true)];
    u := OneMore(s, actions, u, Build(true, true));
    actions := actions + [Build(true, true)];
    NewArchiveIsPublished(s, t, drawn, actions, u);
  }

  lemma NewArchiveIsPublished(s: State, t: Token, drawn: nat, before: seq<Action>, v: State)
    requires WellFormed(s) && IsCurrent(s.session, t) && t.account < |s.durable.prefs| && s.holder.Nobody?
    requires s.durable.prefs[t.account].mem == NOTHING && Leads(s, before, v)
    requires var d := s.durable;
             v == s.(durable := d.(keys := d.keys + {drawn}, dbs := d.dbs + {drawn},
                       homes := d.homes[drawn := t.account]), queue := [], work := Offering(t, drawn))
    ensures var d := s.durable;
            var mine := Prefs(Some(drawn), t.owner);
            var made := d.(keys := d.keys + {drawn}, dbs := d.dbs + {drawn}, homes := d.homes[drawn := t.account],
                           prefs := d.prefs[t.account := File(mine, mine)]);
            exists actions :: Leads(s, actions, s.(durable := made, queue := [], work := Operating(t, drawn)))
  {
    hide Leads, IsCurrent;
    var d := s.durable;
    var u := OneMore(s, before, v, Offer);
    u := OneMore(s, before + [Offer], u, Publish(true));
    u := OneMore(s, before + [Offer] + [Publish(true)], u, Recheck);
    var mine := Prefs(Some(drawn), t.owner);
    var made := d.(keys := d.keys + {drawn}, dbs := d.dbs + {drawn}, homes := d.homes[drawn := t.account],
                   prefs := d.prefs[t.account := File(mine, mine)]);
    assert u == s.(durable := made, queue := [], work := Operating(t, drawn));
  }
}
