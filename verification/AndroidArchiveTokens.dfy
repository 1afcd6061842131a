/**
 * How long a session token is good for on Android: exactly until its account logs out or changes hands or, for a token
 * of the user interface, the screen is locked; and only while the host names its owner and, again for the user
 * interface, says that the screen is unlocked.
 */
module AndroidArchiveTokens {
  import opened Common
  import opened AndroidArchiveCoordinator

  /** The token the session gives out for an account; one for the background does not depend on the lock. */
  function Captured(s: Session, account: nat, background: bool): Token
    requires account < |s.epochs| == |s.owners|
  {
    Token(account, s.owners[account], s.epochs[account], if background then 0 else s.lockEpoch, background)
  }

  /** The calls of the host that must end the token for good. */
  predicate Ends(a: Action, t: Token) {
    || (a.LogoutBegin? && a.account == t.account) || (a.OwnerChanged? && a.account == t.account)
    || (a.Lock? && !t.background)
  }

  /** What the host says at the moment. */
  predicate Allowed(s: Session, t: Token) {
    t.account < |s.owners| && s.owners[t.account] == t.owner && (t.background || s.unlocked)
  }

  predicate Sized(s: State, t: Token) {
    t.account < |s.session.epochs| == |s.session.retired| == |s.session.owners| == |s.durable.prefs|
  }

  /** Nothing has ended the token. */
  predicate Unended(s: State, t: Token) {
    && Sized(s, t) && s.session.epochs[t.account] == t.epoch && !s.session.retired[t.account]
    && (t.background || s.session.lockEpoch == t.lockEpoch)
    && (s.logout.Advancing? ==> s.logout.account != t.account)
  }

  /** Something has, and nothing can undo it. */
  predicate Ended(s: State, t: Token) {
    && Sized(s, t)
    && (s.session.epochs[t.account] > t.epoch || (!t.background && s.session.lockEpoch > t.lockEpoch)
        || (s.logout.Advancing? && s.logout.account == t.account && s.session.retired[t.account]
            && s.session.epochs[t.account] == t.epoch))
  }

  lemma UnendedStep(s: State, a: Action, t: Token)
    requires WellFormed(s) && Enabled(s, a) && !a.Crash? && Unended(s, t)
    ensures if Ends(a, t) then Ended(Step(s, a), t) else Unended(Step(s, a), t)
  {
    hide AfterDestroyStep, AfterInspect, AfterAbandon, AfterLoad, AfterDraw, AfterBuild, AfterOffer, AfterPublish;
    if !OfHost(a) {
      WorkerLeavesSession(s, a);
      hide Step, Enabled;
    }
  }

  lemma EndedStep(s: State, a: Action, t: Token)
    requires WellFormed(s) && Enabled(s, a) && !a.Crash? && Ended(s, t)
    ensures Ended(Step(s, a), t)
  {
    if !OfHost(a) {
      WorkerLeavesSession(s, a);
      hide Step, Enabled;
    }
  }

  lemma WorkerLeavesSession(s: State, a: Action)
    requires WellFormed(s) && Enabled(s, a) && !a.Crash? && !OfHost(a)
    ensures var t := Step(s, a);
            t.session == s.session && t.logout == s.logout && |t.durable.prefs| == |s.durable.prefs|
  {
    hide IsCurrent, Commit;
  }

  lemma CurrentExactly(s: State, t: Token)
    requires t.owner > 0
    ensures Unended(s, t) ==> (IsCurrent(s.session, t) <==> Allowed(s.session, t))
    ensures Ended(s, t) ==> !IsCurrent(s.session, t)
  {
  }

  lemma {:induction false} TokenOn(states: seq<State>, actions: seq<Action>, p: nat, i: nat, t: Token)
    requires Run(states, actions) && p <= i < |states| && Unended(states[p], t)
    requires forall k :: p <= k < i ==> !actions[k].Crash?
    ensures if exists k :: p <= k < i && Ends(actions[k], t) then Ended(states[i], t) else Unended(states[i], t)
    decreases i
  {
    hide Ends, Ended, Unended, WellFormed, Step, Enabled, StoreInv;
    if p < i {
      TokenOn(states, actions, p, i - 1, t);
      StepOfRun(states, actions, i - 1);
      if exists k :: p <= k < i - 1 && Ends(actions[k], t) {
        EndedStep(states[i - 1], actions[i - 1], t);
      } else {
        UnendedStep(states[i - 1], actions[i - 1], t);
      }
    }
  }

  /**
   * A token is current at a later moment of its process if and only if since its capture its account has not logged
   * out or changed hands and, unless it is for the background, the screen has not been locked, and the host now names
   * its owner and has the screen unlocked.  Neither an owner who comes back nor an unlocked screen revives it.
   */
  lemma TokenIsCurrentExactly(states: seq<State>, actions: seq<Action>, p: nat, i: nat, account: nat, background: bool)
    requires Run(states, actions) && p <= i < |states| && account < |states[p].durable.prefs|
    requires |states[p].session.epochs| == |states[p].session.owners| == |states[p].durable.prefs|
    requires IsCurrent(states[p].session, Captured(states[p].session, account, background))
    requires forall k :: p <= k < i ==> !actions[k].Crash?
    ensures var t := Captured(states[p].session, account, background);
            IsCurrent(states[i].session, t) <==>
            && (forall k :: p <= k < i ==>
                  && !(actions[k].LogoutBegin? && actions[k].account == account)
                  && !(actions[k].OwnerChanged? && actions[k].account == account)
                  && !(actions[k].Lock? && !background))
            && account < |states[i].session.owners| && states[i].session.owners[account] == t.owner
            && (background || states[i].session.unlocked)
  {
    RunKeepsInv(states, actions, p);
    PartsOfInv(states[p]);
    var t := Captured(states[p].session, account, background);
    CapturedIsUnended(states[p], account, background);
    hide Inv, MemInv, WellFormed, StoreInv, Run, Unended, Ended;
    TokenOn(states, actions, p, i, t);
    CurrentExactly(states[i], t);
    hide IsCurrent;
    if exists k :: p <= k < i && Ends(actions[k], t) {
      assert !IsCurrent(states[i].session, t);
    } else {
      assert IsCurrent(states[i].session, t) <==> Allowed(states[i].session, t);
      assert forall k :: p <= k < i ==> !Ends(actions[k], t);
    }
  }

  lemma CapturedIsUnended(s: State, account: nat, background: bool)
    requires MemInv(s) && account < |s.durable.prefs| && |s.session.epochs| == |s.session.owners|
    requires SessionInv(s)
    requires IsCurrent(s.session, Captured(s.session, account, background))
    ensures Unended(s, Captured(s.session, account, background)) && Captured(s.session, account, background).owner > 0
  {
    hide StoreInv, DestroyInv, MakeInv, LockInv;
  }
}
