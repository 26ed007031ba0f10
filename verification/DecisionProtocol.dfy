/**
 Racing approve and reject attempts on proposals (core/pkg/approval/webhook.go, core/pkg/approval/callbacks.go).

 An attempt is one webhook delivery or one button click, with a program counter.  Each step consults its environment
 once: `ok` answers "is the caller's context alive", "did the source resolve", "did the sync succeed", "did the id
 generator work", "did Publish return nil".  Each step of the store is one critical section.
 */
module DecisionProtocol {
  import opened Messages
  import opened Options
  import opened ProposalStore

  datatype Route = GitPR | SlackNative

  datatype Reply =
    | Http(code: nat)
    | ClickDone
    | ClickCancelled
    | ClickIdFailure
    | ClickConflict
    | ClickPublishFailure

  datatype PC =
    | EarlyCorrelate                    // a click mints its correlation id before anything else
    | Gate                              // the context check before the claim
    | Claim
    | Resolve
    | Sync
    | Correlate(syncFailed: bool)
    | Publishing(syncFailed: bool)
    | Rollback(reply: Reply)
    | Landed(reply: Reply)              // the owner's Publish returned nil
    | Finished(reply: Reply)            // ended without publishing

  datatype Attempt = Attempt(route: Route, kind: Kind, proposal: ProposalId, correlated: bool, pc: PC)

  datatype Landing = Landing(attempt: nat, proposal: ProposalId, kind: Kind)

  datatype Desk = Desk(decisions: Decisions, attempts: seq<Attempt>, published: seq<Landing>)

  const EMPTY_DESK := Desk(map[], [], [])

  function NewAttempt(route: Route, kind: Kind, proposal: ProposalId, correlated: bool): Attempt {
    Attempt(route, kind, proposal, correlated, if route == GitPR then Gate else EarlyCorrelate)
  }

  predicate Active(at: Attempt) { !at.pc.Landed? && !at.pc.Finished? }

  /** Where an attempt goes after a successful claim. */
  function AfterClaim(at: Attempt): PC {
    if at.route == SlackNative then Publishing(false)
    else if at.kind == Approved then Resolve
    else Correlate(false)
  }

  function Reject(at: Attempt, code: nat, click: Reply): Reply {
    if at.route == GitPR then Http(code) else click
  }

  /** The reply to a successful publish: 202 when the source sync had failed. */
  function Success(at: Attempt, syncFailed: bool): Reply {
    if at.route == SlackNative then ClickDone else if syncFailed then Http(202) else Http(200)
  }

  /** One step of attempt `a`: its next program counter and the decisions it leaves. */
  function Advance(d: Decisions, at: Attempt, ok: bool): (PC, Decisions)
    requires Active(at)
  {
    match at.pc
    case EarlyCorrelate => (if at.correlated || ok then Gate else Finished(ClickIdFailure), d)
    case Gate => (if ok then Claim else Finished(Reject(at, 408, ClickCancelled)), d)
    case Claim =>
      var (m, d') := Mark(d, false, at.proposal, at.kind);
      (match m
       case FirstTime => AfterClaim(at)
       case Replay => Finished(Reject(at, 200, ClickDone))
       case Conflict(_) => Finished(Reject(at, 409, ClickConflict))
       case _ => Finished(Reject(at, 500, ClickConflict)), d')
    case Resolve => (if ok then Sync else Rollback(Http(422)), d)
    case Sync => (Correlate(!ok), d)
    case Correlate(syncFailed) => (if at.correlated || ok then Publishing(syncFailed) else Rollback(Http(500)), d)
    case Publishing(syncFailed) =>
      (if ok then Landed(Success(at, syncFailed)) else Rollback(Reject(at, 500, ClickPublishFailure)), d)
    case Rollback(reply) => (Finished(reply), Unmark(d, false, at.proposal, at.kind).1)
    case Landed(_) => (at.pc, d)
    case Finished(_) => (at.pc, d)
  }

  datatype Step =
    | Begin(route: Route, kind: Kind, proposal: ProposalId, correlated: bool)
    | Run(a: nat, ok: bool)

  predicate Enabled(s: Desk, step: Step) {
    match step
    case Begin(_, kind, proposal, _) => ValidKind(kind) && proposal != NIL_ID
    case Run(a, _) => a < |s.attempts| && Active(s.attempts[a])
  }

  function Apply(s: Desk, step: Step): Desk
    requires Enabled(s, step)
  {
    match step
    case Begin(route, kind, proposal, correlated) =>
      s.(attempts := s.attempts + [NewAttempt(route, kind, proposal, correlated)])
    case Run(a, ok) =>
      var at := s.attempts[a];
      var (pc, d) := Advance(s.decisions, at, ok);
      Desk(d, s.attempts[a := at.(pc := pc)],
           if pc.Landed? then s.published + [Landing(a, at.proposal, at.kind)] else s.published)
  }

  function Exec(s: Desk, schedule: seq<Step>): Option<Desk> {
    if schedule == [] then Some(s)
    else
      var before := Exec(s, schedule[..|schedule| - 1]);
      var last := schedule[|schedule| - 1];
      if before.Some? && Enabled(before.value, last) then Some(Apply(before.value, last)) else None
  }

  ghost predicate Reachable(s: Desk) {
    exists schedule: seq<Step> :: Exec(EMPTY_DESK, schedule) == Some(s)
  }

  // ---------------------------------------------------------------- the invariant

  /** Between a first claim and its rollback, or landed: the attempt that a stored decision stands for. */
  predicate Owns(at: Attempt) {
    at.pc.Resolve? || at.pc.Sync? || at.pc.Correlate? || at.pc.Publishing? || at.pc.Rollback? || at.pc.Landed?
  }

  ghost predicate Claims(decisions: Decisions, attempts: seq<Attempt>) {
    && (forall a :: 0 <= a < |attempts| && Owns(attempts[a]) ==>
          attempts[a].proposal in decisions && decisions[attempts[a].proposal] == attempts[a].kind)
    && (forall x :: x in decisions ==> Owned(attempts, x))
    && (forall a, b :: 0 <= a < b < |attempts| && Owns(attempts[a]) && Owns(attempts[b]) ==>
          attempts[a].proposal != attempts[b].proposal)
  }

  ghost predicate Owned(attempts: seq<Attempt>, x: ProposalId) {
    exists a :: 0 <= a < |attempts| && Owns(attempts[a]) && attempts[a].proposal == x
  }

  ghost predicate Publications(attempts: seq<Attempt>, published: seq<Landing>) {
    && (forall i :: 0 <= i < |published| ==> LandingOk(attempts, published[i]))
    && (forall i, j :: 0 <= i < j < |published| ==> published[i].attempt != published[j].attempt)
    && (forall a :: 0 <= a < |attempts| && attempts[a].pc.Landed? ==> Published(published, a))
  }

  ghost predicate LandingOk(attempts: seq<Attempt>, l: Landing) {
    l.attempt < |attempts| && attempts[l.attempt].pc.Landed? &&
    attempts[l.attempt].proposal == l.proposal && attempts[l.attempt].kind == l.kind
  }

  ghost predicate Published(published: seq<Landing>, a: nat) {
    exists i :: 0 <= i < |published| && published[i].attempt == a
  }

  ghost predicate Valid(s: Desk) {
    && (forall a :: 0 <= a < |s.attempts| ==> ValidKind(s.attempts[a].kind) && s.attempts[a].proposal != NIL_ID)
    && Claims(s.decisions, s.attempts)
    && Publications(s.attempts, s.published)
  }

  lemma ClaimsGrow(decisions: Decisions, attempts: seq<Attempt>, at: Attempt)
    requires Claims(decisions, attempts) && !Owns(at)
    ensures Claims(decisions, attempts + [at])
  {
    forall x | x in decisions
      ensures Owned(attempts + [at], x)
    {
      assert Owned(attempts, x);
      var a :| 0 <= a < |attempts| && Owns(attempts[a]) && attempts[a].proposal == x;
      assert (attempts + [at])[a] == attempts[a];
    }
  }

  lemma ClaimsStep(decisions: Decisions, attempts: seq<Attempt>, a: nat, ok: bool)
    requires Claims(decisions, attempts) && a < |attempts| && Active(attempts[a])
    requires ValidKind(attempts[a].kind) && attempts[a].proposal != NIL_ID
    ensures var (pc, d) := Advance(decisions, attempts[a], ok); Claims(d, attempts[a := attempts[a].(pc := pc)])
  {
    var at := attempts[a];
    var (pc, d) := Advance(decisions, at, ok);
    var attempts' := attempts[a := at.(pc := pc)];
    DecisionsStep(decisions, at, ok);
    forall x | x in d
      ensures Owned(attempts', x)
    {
      if x == at.proposal && Owns(attempts'[a]) {
      } else {
        assert Owned(attempts, x);
        var b :| 0 <= b < |attempts| && Owns(attempts[b]) && attempts[b].proposal == x;
        assert Owns(attempts'[b]);
      }
    }
  }

  /** A step claims a free proposal, gives up the attempt's own claim, or leaves the decisions alone. */
  lemma DecisionsStep(d: Decisions, at: Attempt, ok: bool)
    requires Active(at) && ValidKind(at.kind) && at.proposal != NIL_ID
    requires Owns(at) ==> at.proposal in d && d[at.proposal] == at.kind
    ensures var (pc, d') := Advance(d, at, ok);
      if !Owns(at) && Owns(at.(pc := pc)) then at.proposal !in d && d' == d[at.proposal := at.kind]
      else if Owns(at) && !Owns(at.(pc := pc)) then d' == d - {at.proposal}
      else d' == d
  {
  }

  lemma PublicationsStep(decisions: Decisions, attempts: seq<Attempt>, published: seq<Landing>, a: nat, ok: bool)
    requires Publications(attempts, published) && a < |attempts| && Active(attempts[a])
    ensures var at := attempts[a]; var (pc, d) := Advance(decisions, at, ok);
      Publications(attempts[a := at.(pc := pc)],
                   if pc.Landed? then published + [Landing(a, at.proposal, at.kind)] else published)
  {
    var at := attempts[a];
    var (pc, d) := Advance(decisions, at, ok);
    var attempts' := attempts[a := at.(pc := pc)];
    var published' := if pc.Landed? then published + [Landing(a, at.proposal, at.kind)] else published;
    forall i | 0 <= i < |published|
      ensures LandingOk(attempts', published[i]) && published[i].attempt != a
    {
      assert LandingOk(attempts, published[i]);
    }
    forall b | 0 <= b < |attempts'| && attempts'[b].pc.Landed?
      ensures Published(published', b)
    {
      if b == a {
        assert published'[|published|].attempt == a;
      } else {
        assert Published(published, b);
        var i :| 0 <= i < |published| && published[i].attempt == b;
        assert published'[i].attempt == b;
      }
    }
  }

  lemma StepKeepsValid(s: Desk, step: Step)
    requires Valid(s) && Enabled(s, step)
    ensures Valid(Apply(s, step))
  {
    match step
    case Begin(route, kind, proposal, correlated) =>
      var at := NewAttempt(route, kind, proposal, correlated);
      ClaimsGrow(s.decisions, s.attempts, at);
      forall i | 0 <= i < |s.published|
        ensures LandingOk(s.attempts + [at], s.published[i])
      {
        assert LandingOk(s.attempts, s.published[i]);
      }
    case Run(a, ok) =>
      ClaimsStep(s.decisions, s.attempts, a, ok);
      PublicationsStep(s.decisions, s.attempts, s.published, a, ok);
  }

  lemma {:induction false} ExecIsValid(s: Desk, schedule: seq<Step>)
    requires Valid(s) && Exec(s, schedule).Some?
    ensures Valid(Exec(s, schedule).value)
  {
    if schedule != [] {
      ExecIsValid(s, schedule[..|schedule| - 1]);
      StepKeepsValid(Exec(s, schedule[..|schedule| - 1]).value, schedule[|schedule| - 1]);
    }
  }

  lemma ReachableIsValid(s: Desk)
    requires Reachable(s)
    ensures Valid(s)
  {
    var schedule: seq<Step> :| Exec(EMPTY_DESK, schedule) == Some(s);
    ExecIsValid(EMPTY_DESK, schedule);
  }

  // ---------------------------------------------------------------- what it gives

  /** Over both routes and any interleaving, a proposal gets at most one terminal event, so never one of each kind. */
  lemma AtMostOneTerminalEvent(s: Desk, i: nat, j: nat)
    requires Reachable(s) && i < |s.published| && j < |s.published|
    requires s.published[i].proposal == s.published[j].proposal
    ensures i == j
  {
    ReachableIsValid(s);
    assert LandingOk(s.attempts, s.published[i]) && LandingOk(s.attempts, s.published[j]);
  }

  /** A decision of kind `k` is stored exactly when one attempt of that kind is between claim and rollback, or one
      event of that kind has been published; and the two never hold together. */
  lemma DecisionStored(s: Desk, x: ProposalId, k: Kind)
    requires Reachable(s)
    ensures (x in s.decisions && s.decisions[x] == k) <==> InFlightOwner(s, x, k) || EventOut(s, x, k)
    ensures !(InFlightOwner(s, x, k) && EventOut(s, x, k))
  {
    ReachableIsValid(s);
    if x in s.decisions && s.decisions[x] == k {
      StoredHasCause(s, x, k);
    }
    if EventOut(s, x, k) {
      EventIsStored(s, x, k);
    }
  }

  lemma StoredHasCause(s: Desk, x: ProposalId, k: Kind)
    requires Valid(s) && x in s.decisions && s.decisions[x] == k
    ensures InFlightOwner(s, x, k) || EventOut(s, x, k)
  {
    assert Owned(s.attempts, x);
    var a :| 0 <= a < |s.attempts| && Owns(s.attempts[a]) && s.attempts[a].proposal == x;
    if s.attempts[a].pc.Landed? {
      assert Published(s.published, a);
      var i :| 0 <= i < |s.published| && s.published[i].attempt == a;
      assert LandingOk(s.attempts, s.published[i]);
    }
  }

  lemma EventIsStored(s: Desk, x: ProposalId, k: Kind)
    requires Valid(s) && EventOut(s, x, k)
    ensures x in s.decisions && s.decisions[x] == k && !InFlightOwner(s, x, k)
  {
    var i :| 0 <= i < |s.published| && s.published[i].proposal == x && s.published[i].kind == k;
    assert LandingOk(s.attempts, s.published[i]);
  }

  ghost predicate InFlightOwner(s: Desk, x: ProposalId, k: Kind) {
    exists a :: 0 <= a < |s.attempts| && Active(s.attempts[a]) && Owns(s.attempts[a]) &&
      s.attempts[a].proposal == x && s.attempts[a].kind == k
  }

  ghost predicate EventOut(s: Desk, x: ProposalId, k: Kind) {
    exists i :: 0 <= i < |s.published| && s.published[i].proposal == x && s.published[i].kind == k
  }

  /** A rollback finds the caller's own claim and removes nothing else; no other attempt owned the proposal. */
  lemma RollbackRemovesOwnClaim(s: Desk, a: nat, ok: bool)
    requires Reachable(s) && a < |s.attempts| && s.attempts[a].pc.Rollback?
    ensures var x := s.attempts[a].proposal;
      && x in s.decisions && s.decisions[x] == s.attempts[a].kind
      && Apply(s, Run(a, ok)).decisions == s.decisions - {x}
      && Apply(s, Run(a, ok)).published == s.published
      && (forall b :: 0 <= b < |s.attempts| && b != a && s.attempts[b].proposal == x ==> !Owns(s.attempts[b]))
      && !exists i :: 0 <= i < |s.published| && s.published[i].proposal == x
  {
    ReachableIsValid(s);
    forall i | 0 <= i < |s.published|
      ensures s.published[i].proposal != s.attempts[a].proposal
    {
      assert LandingOk(s.attempts, s.published[i]);
    }
  }

  predicate SaysSuccess(r: Reply) { r == Http(200) || r == Http(202) || r == ClickDone }

  /** An owner answers success exactly when its own event was published; any other success is a replay, given while
      another attempt owned the same decision. */
  lemma SuccessReplies(s: Desk, a: nat, ok: bool)
    requires Reachable(s) && a < |s.attempts| && Active(s.attempts[a])
    ensures var at, at' := s.attempts[a], Apply(s, Run(a, ok)).attempts[a];
      && (at'.pc.Landed? ==> SaysSuccess(at'.pc.reply) && Published(Apply(s, Run(a, ok)).published, a))
      && (at'.pc.Finished? && SaysSuccess(at'.pc.reply) && at.pc.Claim? ==>
            InFlightOwner(s, at.proposal, at.kind) || EventOut(s, at.proposal, at.kind))
      && (at.pc.Rollback? && at'.pc.Finished? ==> at'.pc.reply == at.pc.reply)
      && (at'.pc.Rollback? ==> !SaysSuccess(at'.pc.reply))
      && (at'.pc.Finished? && !at.pc.Claim? && !at.pc.Rollback? ==> !SaysSuccess(at'.pc.reply))
  {
    ReachableIsValid(s);
    var at := s.attempts[a];
    var s' := Apply(s, Run(a, ok));
    if s'.attempts[a].pc.Landed? {
      assert s'.published[|s.published|].attempt == a;
    }
    if at.pc.Claim? && at.proposal in s.decisions && s.decisions[at.proposal] == at.kind {
      DecisionStored(s, at.proposal, at.kind);
    }
  }

  /** The success reply of a replay does not mean that an event landed: the owner may still fail and roll back, and
      then nothing is published and nothing is stored. */
  lemma ReplaySuccessIsNotALanding()
    ensures exists s: Desk ::
      && Reachable(s)
      && |s.attempts| == 2
      && s.attempts[1].pc == Finished(ClickDone) && s.attempts[1].kind == Approved
      && s.attempts[0].pc == Finished(ClickPublishFailure)
      && s.published == [] && s.decisions == map[]
  {
    var schedule := ReplayedClick();
    var replayed := ClickAt(Finished(ClickDone));
    schedule := RunOne(schedule, ClickAt(Publishing(false)), replayed, map[1 := Approved], 0, false);
    schedule := RunOne(schedule, ClickAt(Rollback(ClickPublishFailure)), replayed, map[1 := Approved], 0, true);
    assert map[1 := Approved] - {1} == map[];
    assert Reachable(TwoAttempts(ClickAt(Finished(ClickPublishFailure)), replayed, map[]));
  }

  /** The second click is told success while the first one has claimed the proposal and is publishing. */
  lemma ReplayedClick() returns (schedule: seq<Step>)
    ensures Exec(EMPTY_DESK, schedule)
      == Some(TwoAttempts(ClickAt(Publishing(false)), ClickAt(Finished(ClickDone)), map[1 := Approved]))
  {
    schedule := FirstClickClaims();
    schedule := RunOne(schedule, ClickAt(Publishing(false)), ClickAt(EarlyCorrelate), map[1 := Approved], 1, true);
    schedule := RunOne(schedule, ClickAt(Publishing(false)), ClickAt(Gate), map[1 := Approved], 1, true);
    schedule := RunOne(schedule, ClickAt(Publishing(false)), ClickAt(Claim), map[1 := Approved], 1, true);
  }

  lemma FirstClickClaims() returns (schedule: seq<Step>)
    ensures Exec(EMPTY_DESK, schedule)
      == Some(TwoAttempts(ClickAt(Publishing(false)), ClickAt(EarlyCorrelate), map[1 := Approved]))
  {
    schedule := TwoClicks();
    schedule := RunOne(schedule, ClickAt(EarlyCorrelate), ClickAt(EarlyCorrelate), map[], 0, true);
    schedule := RunOne(schedule, ClickAt(Gate), ClickAt(EarlyCorrelate), map[], 0, true);
    schedule := RunOne(schedule, ClickAt(Claim), ClickAt(EarlyCorrelate), map[], 0, true);
  }

  function ClickAt(pc: PC): Attempt { Attempt(SlackNative, Approved, 1, true, pc) }

  function TwoAttempts(x: Attempt, y: Attempt, d: Decisions): Desk { Desk(d, [x, y], []) }

  lemma TwoClicks() returns (schedule: seq<Step>)
    ensures Exec(EMPTY_DESK, schedule) == Some(TwoAttempts(ClickAt(EarlyCorrelate), ClickAt(EarlyCorrelate), map[]))
  {
    var click := Begin(SlackNative, Approved, 1, true);
    ExecSnoc(EMPTY_DESK, [], EMPTY_DESK, click);
    ExecSnoc(EMPTY_DESK, [] + [click], Apply(EMPTY_DESK, click), click);
    schedule := [] + [click] + [click];
    assert Apply(Apply(EMPTY_DESK, click), click).attempts == [ClickAt(EarlyCorrelate), ClickAt(EarlyCorrelate)];
  }

  /** Extends a schedule that has led to two attempts by one step of one of them that does not publish. */
  lemma RunOne(schedule: seq<Step>, x: Attempt, y: Attempt, d: Decisions, a: nat, ok: bool) returns (longer: seq<Step>)
    requires Exec(EMPTY_DESK, schedule) == Some(TwoAttempts(x, y, d)) && a < 2
    requires Active([x, y][a]) && !Advance(d, [x, y][a], ok).0.Landed?
    ensures var (pc, d') := Advance(d, [x, y][a], ok);
      Exec(EMPTY_DESK, longer) ==
      Some(if a == 0 then TwoAttempts(x.(pc := pc), y, d') else TwoAttempts(x, y.(pc := pc), d'))
  {
    ExecSnoc(EMPTY_DESK, schedule, TwoAttempts(x, y, d), Run(a, ok));
    longer := schedule + [Run(a, ok)];
    var pc := Advance(d, [x, y][a], ok).0;
    assert [x, y][0 := x.(pc := pc)] == [x.(pc := pc), y];
    assert [x, y][1 := y.(pc := pc)] == [x, y.(pc := pc)];
  }

  lemma ExecSnoc(s: Desk, schedule: seq<Step>, s1: Desk, step: Step)
    requires Exec(s, schedule) == Some(s1) && Enabled(s1, step)
    ensures Exec(s, schedule + [step]) == Some(Apply(s1, step))
  {
    assert (schedule + [step])[..|schedule|] == schedule;
  }
}
