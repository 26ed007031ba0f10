/**
 The decision handlers as they are written: one uninterrupted pass of claim, side effects, publish and rollback over
 shared state (core/pkg/approval/webhook.go, core/pkg/approval/callbacks.go).  Each equals the attempt's steps of the
 interleaving model, taken one after the other.
 */
module ApprovalHandlers {
  import opened ProposalStore
  import opened DecisionProtocol

  /** The answers an attempt gets from its environment. */
  datatype Env = Env(alive: bool, resolved: bool, synced: bool, minted: bool, published: bool)

  function Answer(env: Env, pc: PC): bool {
    match pc
    case EarlyCorrelate => env.minted
    case Gate => env.alive
    case Resolve => env.resolved
    case Sync => env.synced
    case Correlate(_) => env.minted
    case Publishing(_) => env.published
    case _ => true
  }

  function Remaining(pc: PC): nat {
    match pc
    case EarlyCorrelate => 8
    case Gate => 7
    case Claim => 6
    case Resolve => 5
    case Sync => 4
    case Correlate(_) => 3
    case Publishing(_) => 2
    case Rollback(_) => 1
    case _ => 0
  }

  /** Attempt `a` runs to its end with nobody else taking a step. */
  ghost function Alone(s: Desk, a: nat, env: Env): Desk
    requires a < |s.attempts|
    decreases Remaining(s.attempts[a].pc)
  {
    if Active(s.attempts[a]) then Alone(Apply(s, Run(a, Answer(env, s.attempts[a].pc))), a, env) else s
  }

  /** The desk with attempt `a` at `pc` and decisions `d`. */
  ghost function At(s: Desk, a: nat, pc: PC, d: Decisions): Desk
    requires a < |s.attempts|
  {
    Desk(d, s.attempts[a := s.attempts[a].(pc := pc)], s.published)
  }

  /** One step of the attempt that does not publish, on the way to the end it reaches alone. */
  lemma Passes(s: Desk, a: nat, env: Env, pc: PC, d: Decisions, pc': PC, d': Decisions)
    requires a < |s.attempts| && Active(s.attempts[a].(pc := pc))
    requires Advance(d, s.attempts[a].(pc := pc), Answer(env, pc)) == (pc', d') && !pc'.Landed?
    ensures Alone(At(s, a, pc, d), a, env) == Alone(At(s, a, pc', d'), a, env)
  {
    var v := At(s, a, pc, d);
    assert v.attempts[a := v.attempts[a].(pc := pc')] == s.attempts[a := s.attempts[a].(pc := pc')];
    assert Apply(v, Run(a, Answer(env, pc))) == At(s, a, pc', d');
  }

  lemma Starts(s: Desk, a: nat)
    requires a < |s.attempts|
    ensures At(s, a, s.attempts[a].pc, s.decisions) == s
  {
    assert s.attempts[a := s.attempts[a].(pc := s.attempts[a].pc)] == s.attempts;
  }

  /** The successful publish ends the attempt. */
  lemma Publishes(s: Desk, a: nat, env: Env, syncFailed: bool, d: Decisions)
    requires a < |s.attempts| && env.published
    ensures var at := s.attempts[a];
      Alone(At(s, a, Publishing(syncFailed), d), a, env)
      == At(s, a, Landed(Success(at, syncFailed)), d).(published := s.published + [Landing(a, at.proposal, at.kind)])
  {
    var v := At(s, a, Publishing(syncFailed), d);
    var pc := Landed(Success(s.attempts[a], syncFailed));
    assert v.attempts[a := v.attempts[a].(pc := pc)] == s.attempts[a := s.attempts[a].(pc := pc)];
  }

  /** The source does not map: the claim is rolled back. */
  lemma ResolveFails(s: Desk, a: nat, env: Env, d: Decisions)
    requires a < |s.attempts| && !env.resolved
    ensures Alone(At(s, a, Resolve, d), a, env)
      == At(s, a, Finished(Http(422)), Unmark(d, false, s.attempts[a].proposal, s.attempts[a].kind).1)
  {
    Passes(s, a, env, Resolve, d, Rollback(Http(422)), d);
    Passes(s, a, env, Rollback(Http(422)), d, Finished(Http(422)),
           Unmark(d, false, s.attempts[a].proposal, s.attempts[a].kind).1);
  }

  /** A failed sync is remembered, and no reason to stop. */
  lemma ResolvePasses(s: Desk, a: nat, env: Env, d: Decisions)
    requires a < |s.attempts| && env.resolved
    ensures Alone(At(s, a, Resolve, d), a, env) == Alone(At(s, a, Correlate(!env.synced), d), a, env)
  {
    Passes(s, a, env, Resolve, d, Sync, d);
    Passes(s, a, env, Sync, d, Correlate(!env.synced), d);
  }

  // ---------------------------------------------------------------- how an attempt that runs alone ends

  /** Answered without publishing: nothing is stored and nothing has been published. */
  ghost predicate Refused(s: Desk, s': Desk, a: nat, reply: Reply)
    requires a < |s.attempts|
  {
    s' == Desk(s.decisions, s.attempts[a := s.attempts[a].(pc := Finished(reply))], s.published)
  }

  /** Decided: the decision is stored, its event is out, and nothing else has changed. */
  ghost predicate Decided(s: Desk, s': Desk, a: nat, reply: Reply)
    requires a < |s.attempts|
  {
    var at := s.attempts[a];
    s' == Desk(s.decisions[at.proposal := at.kind], s.attempts[a := at.(pc := Landed(reply))],
               s.published + [Landing(a, at.proposal, at.kind)])
  }

  predicate Identified(at: Attempt, env: Env) { at.correlated || env.minted }

  /** The proposal is undecided and the caller still there. */
  predicate Clear(s: Desk, at: Attempt, env: Env) { env.alive && at.proposal !in s.decisions }

  /** The end of an attempt that claims: the first of its side effects that fails, if one does. */
  ghost predicate WebhookEnd(s: Desk, s': Desk, a: nat, env: Env)
    requires a < |s.attempts|
  {
    var at := s.attempts[a];
    && (!env.alive ==> Refused(s, s', a, Http(408)))
    && (env.alive && at.proposal in s.decisions ==>
          Refused(s, s', a, if s.decisions[at.proposal] == at.kind then Http(200) else Http(409)))
    && (Clear(s, at, env) && at.kind == Approved && !env.resolved ==> Refused(s, s', a, Http(422)))
    && (Clear(s, at, env) && (at.kind == Approved ==> env.resolved) && !(Identified(at, env) && env.published) ==>
          Refused(s, s', a, Http(500)))
    && (Clear(s, at, env) && (at.kind == Approved ==> env.resolved) && Identified(at, env) && env.published ==>
          Decided(s, s', a, if at.kind == Approved && !env.synced then Http(202) else Http(200)))
  }

  ghost predicate ClickEnd(s: Desk, s': Desk, a: nat, env: Env)
    requires a < |s.attempts|
  {
    var at := s.attempts[a];
    && (!Identified(at, env) ==> Refused(s, s', a, ClickIdFailure))
    && (Identified(at, env) && !env.alive ==> Refused(s, s', a, ClickCancelled))
    && (Identified(at, env) && env.alive && at.proposal in s.decisions ==>
          Refused(s, s', a, if s.decisions[at.proposal] == at.kind then ClickDone else ClickConflict))
    && (Identified(at, env) && Clear(s, at, env) && !env.published ==> Refused(s, s', a, ClickPublishFailure))
    && (Identified(at, env) && Clear(s, at, env) && env.published ==> Decided(s, s', a, ClickDone))
  }

  /** Giving a fresh claim back leaves no trace of it. */
  lemma RollsBack(s: Desk, a: nat, env: Env, reply: Reply)
    requires a < |s.attempts| && ValidKind(s.attempts[a].kind) && s.attempts[a].proposal != NIL_ID
    requires s.attempts[a].proposal !in s.decisions
    ensures var at := s.attempts[a];
      Refused(s, Alone(At(s, a, Rollback(reply), s.decisions[at.proposal := at.kind]), a, env), a, reply)
  {
    var at := s.attempts[a];
    var d := s.decisions[at.proposal := at.kind];
    assert d - {at.proposal} == s.decisions;
    Passes(s, a, env, Rollback(reply), d, Finished(reply), s.decisions);
  }

  /** From the publish on. */
  lemma PublishEnds(s: Desk, a: nat, env: Env, syncFailed: bool)
    requires a < |s.attempts| && ValidKind(s.attempts[a].kind) && s.attempts[a].proposal != NIL_ID
    requires s.attempts[a].proposal !in s.decisions
    ensures var at := s.attempts[a];
      var s' := Alone(At(s, a, Publishing(syncFailed), s.decisions[at.proposal := at.kind]), a, env);
      if env.published
      then Decided(s, s', a, if at.route == SlackNative then ClickDone else if syncFailed then Http(202) else Http(200))
      else Refused(s, s', a, if at.route == GitPR then Http(500) else ClickPublishFailure)
  {
    var at := s.attempts[a];
    var d := s.decisions[at.proposal := at.kind];
    if env.published {
      Publishes(s, a, env, syncFailed, d);
    } else {
      var reply := if at.route == GitPR then Http(500) else ClickPublishFailure;
      Passes(s, a, env, Publishing(syncFailed), d, Rollback(reply), d);
      RollsBack(s, a, env, reply);
    }
  }

  /** From the correlation id of a webhook on. */
  lemma CorrelateEnds(s: Desk, a: nat, env: Env, syncFailed: bool)
    requires a < |s.attempts| && ValidKind(s.attempts[a].kind) && s.attempts[a].proposal != NIL_ID
    requires s.attempts[a].proposal !in s.decisions && s.attempts[a].route == GitPR
    ensures var at := s.attempts[a];
      var s' := Alone(At(s, a, Correlate(syncFailed), s.decisions[at.proposal := at.kind]), a, env);
      if Identified(at, env) && env.published then Decided(s, s', a, if syncFailed then Http(202) else Http(200))
      else Refused(s, s', a, Http(500))
  {
    var at := s.attempts[a];
    var d := s.decisions[at.proposal := at.kind];
    if Identified(at, env) {
      Passes(s, a, env, Correlate(syncFailed), d, Publishing(syncFailed), d);
      PublishEnds(s, a, env, syncFailed);
    } else {
      Passes(s, a, env, Correlate(syncFailed), d, Rollback(Http(500)), d);
      RollsBack(s, a, env, Http(500));
    }
  }

  /** The gate and the claim, when they let the attempt through. */
  lemma Claims(s: Desk, a: nat, env: Env)
    requires a < |s.attempts| && ValidKind(s.attempts[a].kind) && s.attempts[a].proposal != NIL_ID
    requires Clear(s, s.attempts[a], env)
    ensures var at := s.attempts[a];
      Alone(At(s, a, Gate, s.decisions), a, env)
      == Alone(At(s, a, AfterClaim(at), s.decisions[at.proposal := at.kind]), a, env)
  {
    var at := s.attempts[a];
    Passes(s, a, env, Gate, s.decisions, Claim, s.decisions);
    Passes(s, a, env, Claim, s.decisions, AfterClaim(at), s.decisions[at.proposal := at.kind]);
  }

  /** The gate and the claim, when they do not. */
  lemma TurnsAway(s: Desk, a: nat, env: Env)
    requires a < |s.attempts| && ValidKind(s.attempts[a].kind) && s.attempts[a].proposal != NIL_ID
    requires !Clear(s, s.attempts[a], env)
    ensures var at := s.attempts[a]; var s' := Alone(At(s, a, Gate, s.decisions), a, env); var git := at.route == GitPR;
      if !env.alive then Refused(s, s', a, if git then Http(408) else ClickCancelled)
      else if s.decisions[at.proposal] == at.kind then Refused(s, s', a, if git then Http(200) else ClickDone)
      else Refused(s, s', a, if git then Http(409) else ClickConflict)
  {
    var at, d := s.attempts[a], s.decisions;
    if !env.alive {
      Passes(s, a, env, Gate, d, Finished(Reject(at, 408, ClickCancelled)), d);
    } else {
      Passes(s, a, env, Gate, d, Claim, d);
      var reply := if d[at.proposal] == at.kind then Reject(at, 200, ClickDone) else Reject(at, 409, ClickConflict);
      Passes(s, a, env, Claim, d, Finished(reply), d);
    }
  }

  /** How a webhook delivery ends that nobody interrupts, by what its surroundings answer. */
  lemma WebhookEnds(s: Desk, a: nat, env: Env)
    requires a < |s.attempts| && s.attempts[a].pc == Gate && s.attempts[a].route == GitPR
    requires ValidKind(s.attempts[a].kind) && s.attempts[a].proposal != NIL_ID
    ensures WebhookEnd(s, Alone(s, a, env), a, env)
  {
    var at := s.attempts[a];
    Starts(s, a);
    if Clear(s, at, env) {
      var d := s.decisions[at.proposal := at.kind];
      Claims(s, a, env);
      if at.kind == Rejected {
        CorrelateEnds(s, a, env, false);
      } else if env.resolved {
        ResolvePasses(s, a, env, d);
        CorrelateEnds(s, a, env, !env.synced);
      } else {
        Passes(s, a, env, Resolve, d, Rollback(Http(422)), d);
        RollsBack(s, a, env, Http(422));
      }
    } else {
      TurnsAway(s, a, env);
    }
  }

  /** How a click ends that nobody interrupts. */
  lemma ClickEnds(s: Desk, a: nat, env: Env)
    requires a < |s.attempts| && s.attempts[a].pc == EarlyCorrelate && s.attempts[a].route == SlackNative
    requires ValidKind(s.attempts[a].kind) && s.attempts[a].proposal != NIL_ID
    ensures ClickEnd(s, Alone(s, a, env), a, env)
  {
    var at, d := s.attempts[a], s.decisions;
    Starts(s, a);
    if !Identified(at, env) {
      Passes(s, a, env, EarlyCorrelate, d, Finished(ClickIdFailure), d);
    } else {
      Passes(s, a, env, EarlyCorrelate, d, Gate, d);
      if Clear(s, at, env) {
        Claims(s, a, env);
        PublishEnds(s, a, env, false);
      } else {
        TurnsAway(s, a, env);
      }
    }
  }

  class ApprovalDesk {
    const store: Store
    var attempts: seq<Attempt>
    var published: seq<Landing>

    ghost function View(): Desk
      reads this, store
    {
      Desk(store.decisions, attempts, published)
    }

    constructor ()
      ensures View() == EMPTY_DESK && fresh(store)
    {
      store := new Store();
      attempts, published := [], [];
    }

    /** Writes down where attempt `a` has got to. */
    method Settle(a: nat, pc: PC)
      requires a < |attempts|
      modifies this`attempts
      ensures View() == At(old(View()), a, pc, store.decisions)
    {
      attempts := attempts[a := attempts[a].(pc := pc)];
    }

    /** The end of an owner whose side effects failed: roll the claim back and answer. */
    method Fail(a: nat, reply: Reply)
      requires a < |attempts|
      modifies this, store
      ensures View() == At(old(View()), a, Finished(reply),
                           Unmark(old(store.decisions), false, old(attempts)[a].proposal, old(attempts)[a].kind).1)
    {
      var undone := store.UnmarkDecided(false, attempts[a].proposal, attempts[a].kind);
      Settle(a, Finished(reply));
    }

    /** The publish that ends an owner, with its rollback. */
    method PublishOrFail(a: nat, env: Env, syncFailed: bool)
      requires a < |attempts|
      modifies this, store
      ensures View() == Alone(At(old(View()), a, Publishing(syncFailed), old(store.decisions)), a, env)
    {
      var at := attempts[a];
      ghost var s, d := View(), store.decisions;
      if !env.published {
        var reply := Reject(at, 500, ClickPublishFailure);
        Passes(s, a, env, Publishing(syncFailed), d, Rollback(reply), d);
        Passes(s, a, env, Rollback(reply), d, Finished(reply), Unmark(d, false, at.proposal, at.kind).1);
        Fail(a, reply);
        return;
      }
      Publishes(s, a, env, syncFailed, d);
      published := published + [Landing(a, at.proposal, at.kind)];
      Settle(a, Landed(Success(at, syncFailed)));
    }

    method HandleApproved(a: nat, env: Env)
      requires a < |attempts| && attempts[a].pc == Gate && attempts[a].route == GitPR && attempts[a].kind == Approved
      requires attempts[a].proposal != NIL_ID
      modifies this, store
      ensures View() == Alone(old(View()), a, env)
      ensures WebhookEnd(old(View()), View(), a, env)
    {
      WebhookEnds(View(), a, env);
      ghost var s := View();
      var claimed := ClaimOrEnd(a, env);
      if !claimed {
        return;
      }
      ghost var d := store.decisions;
      if !env.resolved {
        ResolveFails(s, a, env, d);
        Fail(a, Http(422));
        return;
      }
      var syncFailed := !env.synced;
      ResolvePasses(s, a, env, d);
      CorrelateAndPublish(a, env, syncFailed, s);
    }

    method HandleRejected(a: nat, env: Env)
      requires a < |attempts| && attempts[a].pc == Gate && attempts[a].route == GitPR && attempts[a].kind == Rejected
      requires attempts[a].proposal != NIL_ID
      modifies this, store
      ensures View() == Alone(old(View()), a, env)
      ensures WebhookEnd(old(View()), View(), a, env)
    {
      WebhookEnds(View(), a, env);
      ghost var s := View();
      var claimed := ClaimOrEnd(a, env);
      if !claimed {
        return;
      }
      CorrelateAndPublish(a, env, false, s);
    }

    /** Dispatch for the approve and reject buttons. */
    method DispatchClick(a: nat, env: Env)
      requires a < |attempts| && attempts[a].pc == EarlyCorrelate && attempts[a].route == SlackNative
      requires ValidKind(attempts[a].kind) && attempts[a].proposal != NIL_ID
      modifies this, store
      ensures View() == Alone(old(View()), a, env)
      ensures ClickEnd(old(View()), View(), a, env)
    {
      ClickEnds(View(), a, env);
      ghost var s, d := View(), store.decisions;
      Starts(s, a);
      if !attempts[a].correlated && !env.minted {
        Passes(s, a, env, EarlyCorrelate, d, Finished(ClickIdFailure), d);
        Settle(a, Finished(ClickIdFailure));
        return;
      }
      Passes(s, a, env, EarlyCorrelate, d, Gate, d);
      Settle(a, Gate);
      assert View() == At(s, a, Gate, d);
      var claimed := ClaimOrEnd(a, env);
      if !claimed {
        return;
      }
      Starts(View(), a);
      PublishOrFail(a, env, false);
    }

    /** The gate and the claim: on a first claim the attempt stands where its side effects begin; otherwise it has
        been answered. */
    method ClaimOrEnd(a: nat, env: Env) returns (claimed: bool)
      requires a < |attempts| && attempts[a].pc == Gate && ValidKind(attempts[a].kind) && attempts[a].proposal != NIL_ID
      modifies this, store
      ensures |attempts| == |old(attempts)| && Alone(View(), a, env) == Alone(old(View()), a, env)
      ensures !claimed ==> attempts[a].pc.Finished?
      ensures claimed ==>
        View() == At(old(View()), a, AfterClaim(old(attempts)[a]), old(store.decisions)[old(attempts)[a].proposal := old(attempts)[a].kind])
    {
      var at := attempts[a];
      ghost var s, d := View(), store.decisions;
      Starts(s, a);
      if !env.alive {
        Passes(s, a, env, Gate, d, Finished(Reject(at, 408, ClickCancelled)), d);
        Settle(a, Finished(Reject(at, 408, ClickCancelled)));
        return false;
      }
      Passes(s, a, env, Gate, d, Claim, d);
      var m := store.MarkDecided(false, at.proposal, at.kind);
      if m.Conflict? {
        Passes(s, a, env, Claim, d, Finished(Reject(at, 409, ClickConflict)), d);
        Settle(a, Finished(Reject(at, 409, ClickConflict)));
        return false;
      }
      if m != FirstTime {
        Passes(s, a, env, Claim, d, Finished(Reject(at, 200, ClickDone)), d);
        Settle(a, Finished(Reject(at, 200, ClickDone)));
        return false;
      }
      Passes(s, a, env, Claim, d, AfterClaim(at), store.decisions);
      Settle(a, AfterClaim(at));
      claimed := true;
    }

    method CorrelateAndPublish(a: nat, env: Env, syncFailed: bool, ghost s: Desk)
      requires a < |attempts| && |s.attempts| > a && s.published == published
      requires exists pc :: attempts == s.attempts[a := s.attempts[a].(pc := pc)]
      modifies this, store
      ensures View() == Alone(At(s, a, Correlate(syncFailed), old(store.decisions)), a, env)
    {
      ghost var d := store.decisions;
      if !attempts[a].correlated && !env.minted {
        Passes(s, a, env, Correlate(syncFailed), d, Rollback(Http(500)), d);
        Passes(s, a, env, Rollback(Http(500)), d, Finished(Http(500)),
               Unmark(d, false, attempts[a].proposal, attempts[a].kind).1);
        Fail(a, Http(500));
        return;
      }
      Passes(s, a, env, Correlate(syncFailed), d, Publishing(syncFailed), d);
      assert At(View(), a, Publishing(syncFailed), d) == At(s, a, Publishing(syncFailed), d);
      PublishOrFail(a, env, syncFailed);
    }
  }
}
