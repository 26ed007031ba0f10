/**
 What the reply of a decision attempt means: what its surroundings had told it, question by question, in every
 interleaving (core/pkg/approval/webhook.go, core/pkg/approval/callbacks.go).
 */
module DecisionAnswers {
  import opened Messages
  import opened Options
  import opened ProposalStore
  import opened DecisionProtocol

  /** The answers an attempt has been given so far; None is a question not asked.  Is the caller's context alive, did the
      source resolve, did the sync work, could an id be minted, did Publish return nil? */
  datatype Told = Told(
    alive: Option<bool>, resolved: Option<bool>, synced: Option<bool>, minted: Option<bool>, published: Option<bool>)

  const NOTHING := Told(None, None, None, None, None)

  /** A question is recorded with its answer; claiming and rolling back ask nothing. */
  function Record(told: Told, at: PC, ok: bool): Told {
    match at
    case EarlyCorrelate => told.(minted := Some(ok))
    case Gate => told.(alive := Some(ok))
    case Resolve => told.(resolved := Some(ok))
    case Sync => told.(synced := Some(ok))
    case Correlate(_) => told.(minted := Some(ok))
    case Publishing(_) => told.(published := Some(ok))
    case _ => told
  }

  /** What attempt `a` has been told in a schedule. */
  function ToldIn(schedule: seq<Step>, a: nat): Told {
    if schedule == [] then NOTHING
    else
      var n := |schedule| - 1;
      var before, told := Exec(EMPTY_DESK, schedule[..n]), ToldIn(schedule[..n], a);
      if before.Some? && schedule[n].Run? && schedule[n].a == a < |before.value.attempts|
      then Record(told, before.value.attempts[a].pc, schedule[n].ok)
      else told
  }

  // ---------------------------------------------------------------- where the answers put an attempt

  /** Only an approval that came by webhook asks for a source and syncs it. */
  predicate Sourced(at: Attempt) { at.route == GitPR && at.kind == Approved }

  predicate Identified(at: Attempt, told: Told) { told.minted.Some? && (at.correlated || told.minted == Some(true)) }

  /** The side effects before the publish: the source of an approval, tried once each, and the correlation id. */
  predicate Prepared(at: Attempt, told: Told) {
    && told.alive == Some(true) && Identified(at, told)
    && if Sourced(at) then told.resolved == Some(true) && told.synced.Some? else told.resolved == None == told.synced
  }

  /** The last "no" that an attempt was told, before it gave up a claim or never made one. */
  datatype Cause = NotAlive | NotResolved | NotMinted | NotPublished | LostTheClaim

  predicate CausedBy(at: Attempt, told: Told, cause: Cause) {
    match cause
    case NotAlive =>
      told.alive == Some(false) && told.resolved == told.synced == told.published == None
      && if at.route == GitPR then told.minted == None else Identified(at, told)
    case NotResolved => Sourced(at) && told == Told(Some(true), Some(false), None, None, None)
    case NotMinted =>
      && !at.correlated && told.minted == Some(false) && told.published == None
      && (at.route == SlackNative ==> told == NOTHING.(minted := Some(false)))
      && (at.route == GitPR ==> told.alive == Some(true))
      && (Sourced(at) ==> told.resolved == Some(true) && told.synced.Some?)
      && (at.route == GitPR && at.kind == Rejected ==> told.resolved == None == told.synced)
    case NotPublished => Prepared(at, told) && told.published == Some(false)
    case LostTheClaim =>
      && told.alive == Some(true) && told.resolved == told.synced == told.published == None
      && (if at.route == GitPR then told.minted == None else Identified(at, told))
  }

  /** The replies for a cause. */
  predicate Says(at: Attempt, cause: Cause, reply: Reply) {
    match cause
    case NotAlive => reply == if at.route == GitPR then Http(408) else ClickCancelled
    case NotResolved => reply == Http(422)
    case NotMinted => reply == if at.route == GitPR then Http(500) else ClickIdFailure
    case NotPublished => reply == if at.route == GitPR then Http(500) else ClickPublishFailure
    case LostTheClaim =>
      if at.route == GitPR then reply == Http(200) || reply == Http(409) else reply == ClickDone || reply == ClickConflict
  }

  predicate EndedBy(at: Attempt, told: Told, reply: Reply) {
    exists cause :: CausedBy(at, told, cause) && Says(at, cause, reply)
  }

  predicate Stands(at: Attempt, told: Told) {
    match at.pc
    case EarlyCorrelate => at.route == SlackNative && told == NOTHING
    case Gate => if at.route == GitPR then told == NOTHING else Identified(at, told) && told.(minted := None) == NOTHING
    case Claim => CausedBy(at, told, LostTheClaim)
    case Resolve => Sourced(at) && told == NOTHING.(alive := Some(true))
    case Sync => Sourced(at) && told == Told(Some(true), Some(true), None, None, None)
    case Correlate(syncFailed) =>
      && at.route == GitPR && told.alive == Some(true) && told.minted == told.published == None
      && (if Sourced(at) then told.resolved == Some(true) && told.synced == Some(!syncFailed)
          else told.resolved == None == told.synced && !syncFailed)
    case Publishing(syncFailed) =>
      && Prepared(at, told) && told.published == None
      && (if Sourced(at) then told.synced == Some(!syncFailed) else !syncFailed)
    case Landed(reply) =>
      && Prepared(at, told) && told.published == Some(true)
      && reply == if at.route == SlackNative then ClickDone else if told.synced == Some(false) then Http(202) else Http(200)
    case Rollback(reply) =>
      && EndedBy(at, told, reply) && told.alive == Some(true)
      && (told.resolved == Some(false) || told.minted == Some(false) || told.published == Some(false))
    case Finished(reply) => EndedBy(at, told, reply)
  }

  lemma ClaimStands(d: Decisions, at: Attempt, ok: bool, told: Told)
    requires at.pc.Claim? && ValidKind(at.kind) && at.proposal != NIL_ID && Stands(at, told)
    ensures Stands(at.(pc := Advance(d, at, ok).0), told)
  {
    var at' := at.(pc := Advance(d, at, ok).0);
    if at'.pc.Finished? { assert CausedBy(at', told, LostTheClaim) && Says(at', LostTheClaim, at'.pc.reply); }
  }

  lemma QuestionStands(d: Decisions, at: Attempt, ok: bool, told: Told)
    requires Active(at) && !at.pc.Claim? && ValidKind(at.kind) && Stands(at, told)
    ensures Stands(at.(pc := Advance(d, at, ok).0), Record(told, at.pc, ok))
  {
    var at', told' := at.(pc := Advance(d, at, ok).0), Record(told, at.pc, ok);
    match at.pc
    case EarlyCorrelate => if at'.pc.Finished? { assert CausedBy(at', told', NotMinted); }
    case Gate => if at'.pc.Finished? { assert CausedBy(at', told', NotAlive); }
    case Resolve => if !ok { assert CausedBy(at', told', NotResolved); }
    case Correlate(_) => if at'.pc.Rollback? { assert CausedBy(at', told', NotMinted); }
    case Publishing(_) => if !ok { assert CausedBy(at', told', NotPublished); }
    case Rollback(reply) =>
      var cause :| CausedBy(at, told, cause) && Says(at, cause, reply);
      assert CausedBy(at', told', cause) && Says(at', cause, reply);
    case _ =>
  }

  lemma {:induction false} NothingToldYet(schedule: seq<Step>, a: nat)
    requires Exec(EMPTY_DESK, schedule).Some? && a >= |Exec(EMPTY_DESK, schedule).value.attempts|
    ensures ToldIn(schedule, a) == NOTHING
  {
    if schedule != [] { NothingToldYet(schedule[..|schedule| - 1], a); }
  }

  /** The attempt that a step runs. */
  lemma RunStands(s: Desk, a: nat, ok: bool, told: Told)
    requires Valid(s) && Enabled(s, Run(a, ok)) && Stands(s.attempts[a], told)
    ensures a < |Apply(s, Run(a, ok)).attempts|
    ensures Stands(Apply(s, Run(a, ok)).attempts[a], Record(told, s.attempts[a].pc, ok))
  {
    if s.attempts[a].pc.Claim? {
      ClaimStands(s.decisions, s.attempts[a], ok, told);
    } else {
      QuestionStands(s.decisions, s.attempts[a], ok, told);
    }
  }

  /** Any other step leaves it, or lets it begin. */
  lemma OthersStand(s: Desk, step: Step, a: nat, told: Told)
    requires Valid(s) && Enabled(s, step) && a < |Apply(s, step).attempts| && (step.Run? ==> step.a != a)
    requires if a < |s.attempts| then Stands(s.attempts[a], told) else told == NOTHING
    ensures Stands(Apply(s, step).attempts[a], told)
  {
  }

  /** Every attempt of every run has asked each question of its route and kind at most once and in order, none of
      another's, and stands where the answers put it. */
  lemma {:induction false} EveryAttemptStands(schedule: seq<Step>, a: nat)
    requires Exec(EMPTY_DESK, schedule).Some? && a < |Exec(EMPTY_DESK, schedule).value.attempts|
    ensures Stands(Exec(EMPTY_DESK, schedule).value.attempts[a], ToldIn(schedule, a))
  {
    var n := |schedule| - 1;
    var s, step := Exec(EMPTY_DESK, schedule[..n]).value, schedule[n];
    ExecIsValid(EMPTY_DESK, schedule[..n]);
    if a < |s.attempts| {
      EveryAttemptStands(schedule[..n], a);
    } else {
      NothingToldYet(schedule[..n], a);
    }
    if step.Run? && step.a == a {
      RunStands(s, a, step.ok, ToldIn(schedule[..n], a));
    } else {
      OthersStand(s, step, a, ToldIn(schedule[..n], a));
    }
  }

  // ---------------------------------------------------------------- what it gives

  /** Only an approval that came by webhook ever asks for its source or syncs it. */
  lemma OnlyWebhookApprovalsTouchTheSource(s: Desk, a: nat)
    requires Reachable(s) && a < |s.attempts| && (s.attempts[a].pc.Resolve? || s.attempts[a].pc.Sync?)
    ensures s.attempts[a].route == GitPR && s.attempts[a].kind == Approved
  {
    var schedule: seq<Step> :| Exec(EMPTY_DESK, schedule) == Some(s);
    EveryAttemptStands(schedule, a);
  }

  /** An attempt lands only after its context was alive, it had a correlation id and its publish worked.  An approval by
      webhook lands only after its source resolved and its sync was tried, and its reply is 202 exactly when that sync
      failed; nothing else is asked for a source, and is answered 200, or with the success of a click. */
  lemma LandedMeans(schedule: seq<Step>, a: nat)
    requires Exec(EMPTY_DESK, schedule).Some? && a < |Exec(EMPTY_DESK, schedule).value.attempts|
    requires Exec(EMPTY_DESK, schedule).value.attempts[a].pc.Landed?
    ensures var at, told := Exec(EMPTY_DESK, schedule).value.attempts[a], ToldIn(schedule, a);
      && told.alive == Some(true) && told.published == Some(true)
      && told.minted.Some? && (at.correlated || told.minted == Some(true))
      && (at.route == GitPR && at.kind == Approved ==>
            && told.resolved == Some(true) && told.synced.Some?
            && at.pc.reply == Http(if told.synced.value then 200 else 202))
      && (at.route == GitPR && at.kind == Rejected ==> told.resolved == None == told.synced && at.pc.reply == Http(200))
      && (at.route == SlackNative ==> told.resolved == None == told.synced && at.pc.reply == ClickDone)
  {
    EveryAttemptStands(schedule, a);
    ExecIsValid(EMPTY_DESK, schedule);
  }

  /** What the reply of an attempt that ended without publishing means: each failure has its reply, and each reply its
      failure.  Without any, the claim decided: a replay or a conflict. */
  lemma RefusalMeans(schedule: seq<Step>, a: nat)
    requires Exec(EMPTY_DESK, schedule).Some? && a < |Exec(EMPTY_DESK, schedule).value.attempts|
    requires Exec(EMPTY_DESK, schedule).value.attempts[a].pc.Finished?
    ensures var at, told := Exec(EMPTY_DESK, schedule).value.attempts[a], ToldIn(schedule, a); var reply := at.pc.reply;
      && (reply == Http(408) || reply == ClickCancelled <==> told.alive == Some(false))
      && (reply == Http(422) <==> told.resolved == Some(false))
      && (reply == Http(500) <==>
            at.route == GitPR && (told.published == Some(false) || (!at.correlated && told.minted == Some(false))))
      && (reply == ClickPublishFailure <==> at.route == SlackNative && told.published == Some(false))
      && (reply == ClickIdFailure <==> at.route == SlackNative && !at.correlated && told.minted == Some(false))
      && (reply == Http(200) || reply == Http(409) || reply == ClickDone || reply == ClickConflict <==>
            told.alive == Some(true) && told.resolved == told.published == None && (at.route == GitPR ==> told.minted == None))
      && reply != Http(202)
  {
    EveryAttemptStands(schedule, a);
    ExecIsValid(EMPTY_DESK, schedule);
    var at, told := Exec(EMPTY_DESK, schedule).value.attempts[a], ToldIn(schedule, a);
    var cause :| CausedBy(at, told, cause) && Says(at, cause, at.pc.reply);
  }

  // ---------------------------------------------------------------- the claim

  ghost predicate Held(s: Desk, x: ProposalId, k: Kind) { InFlightOwner(s, x, k) || EventOut(s, x, k) }

  function Other(k: Kind): Kind { if k == Approved then Rejected else Approved }

  /** The claim, in every reachable state: it goes through exactly when nobody of either kind owns the proposal and no
      event about it is out; it is told success exactly when its own kind is held, and a conflict when the other is. */
  lemma ClaimReplies(s: Desk, a: nat, ok: bool)
    requires Reachable(s) && a < |s.attempts| && s.attempts[a].pc == Claim
    ensures var at, pc := s.attempts[a], Apply(s, Run(a, ok)).attempts[a].pc;
      && (pc == Finished(if at.route == GitPR then Http(200) else ClickDone) <==> Held(s, at.proposal, at.kind))
      && (pc == Finished(if at.route == GitPR then Http(409) else ClickConflict) <==> Held(s, at.proposal, Other(at.kind)))
      && (Owns(at.(pc := pc)) <==> !Held(s, at.proposal, at.kind) && !Held(s, at.proposal, Other(at.kind)))
  {
    ReachableIsValid(s);
    var at := s.attempts[a];
    DecisionStored(s, at.proposal, Approved);
    DecisionStored(s, at.proposal, Rejected);
    if at.proposal in s.decisions { StoredIsValid(s, at.proposal); }
  }

  lemma StoredIsValid(s: Desk, x: ProposalId)
    requires Valid(s) && x in s.decisions
    ensures ValidKind(s.decisions[x])
  {
    assert Owned(s.attempts, x);
  }
}
