/** What callers of the capability broker can rely on, in every interleaving with the reaper and with Close. */
module BrokerTheorems {
  import opened CapabilityBroker
  import opened Options

  // ---------------------------------------------------------------- calls and their events

  /** An answer that the lookup gives, as opposed to one of the checks before it. */
  predicate FromLookup(a: Answer) {
    a.Valid? || a.ErrInvalidToken? || a.ErrTokenExpired? || a.ErrScopeMismatch? || a.ErrOrganizationMismatch?
  }

  /** The event is what its call did. */
  predicate EventBy(calls: seq<Call>, e: Event) {
    e.call < |calls| &&
    var c := calls[e.call];
    match e
    case Issued(_, token, entry) => c.Issue? && c.pc == Returned(Minted(token)) && entry == NewEntry(c, entry.expiry)
    case Revoked(_, token) => c.Revoke? && c.token == token && c.pc == Returned(Done)
    case Checked(_, token, scope, organization, _, _, answer) =>
      && c.Validate? && c.token == token && c.scope == scope && c.organization == organization && c.alive
      && organization != Some("") && FromLookup(answer)
      && (c.pc == Returned(answer) || (c.pc == DeleteExpired && answer == ErrTokenExpired))
  }

  predicate HasEvent(history: seq<Event>, i: nat, c: Call) {
    exists k :: 0 <= k < |history| && history[k].call == i && EventOf(c, history[k])
  }

  /** The event that the call's progress claims. */
  predicate EventOf(c: Call, e: Event) {
    match c
    case Issue(_, _, _, pc) => e.Issued? && pc == Returned(Minted(e.token))
    case Revoke(token, _) => e.Revoked? && e.token == token
    case Validate(_, token, _, _, pc) => e.Checked? && e.token == token && (pc == Returned(e.answer) || e.answer == ErrTokenExpired)
  }

  /** A call that has taken effect. */
  predicate Effective(c: Call) {
    match c
    case Issue(_, _, _, pc) => pc.Returned? && pc.answer.Minted?
    case Revoke(_, pc) => pc == Returned(Done)
    case Validate(_, _, _, _, pc) => pc.DeleteExpired? || (pc.Returned? && FromLookup(pc.answer))
  }

  predicate CallOk(c: Call, i: nat, history: seq<Event>) {
    && (c.Issue? && (c.pc.Generate? || c.pc.Stamp? || c.pc.Insert?) ==> c.ttl > 0 && c.scope != "" && c.organization != Some(""))
    && (c.Validate? && (c.pc.Lookup? || c.pc.DeleteExpired?) ==> c.alive && c.organization != Some(""))
    && (Effective(c) ==> HasEvent(history, i, c))
  }

  ghost predicate Logged(calls: seq<Call>, history: seq<Event>) {
    && (forall i :: 0 <= i < |calls| ==> CallOk(calls[i], i, history))
    && (forall k :: 0 <= k < |history| ==> EventBy(calls, history[k]))
    && OncePerCall(history)
  }

  predicate OncePerCall(history: seq<Event>) {
    forall j, k :: 0 <= j < k < |history| ==> history[j].call != history[k].call
  }

  lemma HasEventGrows(history: seq<Event>, e: Event, i: nat, c: Call)
    requires HasEvent(history, i, c)
    ensures HasEvent(history + [e], i, c)
  {
    var k :| 0 <= k < |history| && history[k].call == i && EventOf(c, history[k]);
    assert (history + [e])[k] == history[k];
  }

  /** A call moves on without an event; one that has taken effect is done but for its last deletion. */
  lemma QuietMove(calls: seq<Call>, history: seq<Event>, i: nat, c: Call)
    requires Logged(calls, history) && i < |calls| && CallOk(c, i, history)
    requires forall k :: 0 <= k < |history| && history[k].call == i ==> EventBy(calls[i := c], history[k])
    ensures Logged(calls[i := c], history)
  {
    forall k | 0 <= k < |history|
      ensures EventBy(calls[i := c], history[k])
    {
      assert EventBy(calls, history[k]);
    }
  }

  lemma EventfulMove(calls: seq<Call>, history: seq<Event>, i: nat, c: Call, e: Event)
    requires Logged(calls, history) && i < |calls| && !Effective(calls[i])
    requires e.call == i && EventBy(calls[i := c], e) && EventOf(c, e) && CallOk(c, i, history + [e])
    ensures Logged(calls[i := c], history + [e])
  {
    NoEventYet(calls, history, i);
    forall j | 0 <= j < |calls| && j != i
      ensures CallOk(calls[j], j, history + [e])
    {
      assert CallOk(calls[j], j, history);
      if Effective(calls[j]) { HasEventGrows(history, e, j, calls[j]); }
    }
    forall k | 0 <= k < |history|
      ensures EventBy(calls[i := c], history[k])
    {
      assert EventBy(calls, history[k]);
    }
  }

  lemma NoEventYet(calls: seq<Call>, history: seq<Event>, i: nat)
    requires Logged(calls, history) && i < |calls| && !Effective(calls[i])
    ensures forall k :: 0 <= k < |history| ==> history[k].call != i
  {
    forall k | 0 <= k < |history|
      ensures history[k].call != i
    {
      assert EventBy(calls, history[k]);
    }
  }

  lemma IssueKeepsLogged(s: Broker, i: nat, draw: Draw)
    requires Logged(s.calls, s.history) && CallReady(s, i, draw) && s.calls[i].Issue?
    ensures Logged(IssueStep(s, i, draw).calls, IssueStep(s, i, draw).history)
  {
    var c, s' := s.calls[i], IssueStep(s, i, draw);
    assert CallOk(c, i, s.history);
    if c.pc.Insert? && !s.closed {
      var e := Issued(i, c.pc.token, NewEntry(c, c.pc.expiry));
      assert (s.history + [e])[|s.history|] == e;
      EventfulMove(s.calls, s.history, i, s'.calls[i], e);
    } else {
      NoEventYet(s.calls, s.history, i);
      QuietMove(s.calls, s.history, i, s'.calls[i]);
    }
  }

  lemma ValidateKeepsLogged(s: Broker, i: nat)
    requires Logged(s.calls, s.history) && CallReady(s, i, DrawFailed) && s.calls[i].Validate?
    ensures Logged(ValidateStep(s, i).calls, ValidateStep(s, i).history)
  {
    var c, s' := s.calls[i], ValidateStep(s, i);
    assert CallOk(c, i, s.history);
    if c.pc.Begin? {
      NoEventYet(s.calls, s.history, i);
      QuietMove(s.calls, s.history, i, s'.calls[i]);
    } else if c.pc.Lookup? {
      var e := s'.history[|s.history|];
      EventfulMove(s.calls, s.history, i, s'.calls[i], e);
    } else {
      DeletionKeepsLogged(s.calls, s.history, i, s'.calls[i]);
    }
  }

  lemma DeletionKeepsLogged(calls: seq<Call>, history: seq<Event>, i: nat, c: Call)
    requires Logged(calls, history) && i < |calls| && calls[i].Validate? && calls[i].pc.DeleteExpired?
    requires c == Validate(calls[i].alive, calls[i].token, calls[i].scope, calls[i].organization, Returned(ErrTokenExpired))
    ensures Logged(calls[i := c], history)
  {
    assert CallOk(calls[i], i, history);
    var k :| 0 <= k < |history| && history[k].call == i && EventOf(calls[i], history[k]);
    assert EventOf(c, history[k]);
    forall k | 0 <= k < |history| && history[k].call == i
      ensures EventBy(calls[i := c], history[k])
    {
      assert EventBy(calls, history[k]);
    }
    QuietMove(calls, history, i, c);
  }

  lemma RevokeKeepsLogged(s: Broker, i: nat)
    requires Logged(s.calls, s.history) && CallReady(s, i, DrawFailed) && s.calls[i].Revoke?
    ensures Logged(RevokeStep(s, i).calls, RevokeStep(s, i).history)
  {
    var c, s' := s.calls[i], RevokeStep(s, i);
    if c.pc.Delete? {
      assert (s.history + [Revoked(i, c.token)])[|s.history|] == Revoked(i, c.token);
      EventfulMove(s.calls, s.history, i, s'.calls[i], Revoked(i, c.token));
    } else {
      NoEventYet(s.calls, s.history, i);
      QuietMove(s.calls, s.history, i, s'.calls[i]);
    }
  }

  lemma StartKeepsLogged(calls: seq<Call>, history: seq<Event>, c: Call)
    requires Logged(calls, history) && c.pc == Begin
    ensures Logged(calls + [c], history)
  {
    forall k | 0 <= k < |history|
      ensures EventBy(calls + [c], history[k])
    {
      assert EventBy(calls, history[k]);
    }
  }

  lemma StepKeepsLogged(s: Broker, step: Step)
    requires Logged(s.calls, s.history) && Enabled(s, step)
    ensures Logged(Apply(s, step).calls, Apply(s, step).history)
  {
    match step
    case Start(call) => StartKeepsLogged(s.calls, s.history, call);
    case RunCall(i, draw) =>
      if s.calls[i].Issue? {
        IssueKeepsLogged(s, i, draw);
      } else if s.calls[i].Validate? {
        ValidateKeepsLogged(s, i);
      } else {
        RevokeKeepsLogged(s, i);
      }
    case _ =>
  }

  lemma {:induction false} ExecKeepsLogged(s: Broker, schedule: seq<Step>)
    requires Logged(s.calls, s.history) && Exec(s, schedule).Some?
    ensures Logged(Exec(s, schedule).value.calls, Exec(s, schedule).value.history)
  {
    if schedule != [] {
      ExecKeepsLogged(s, schedule[..|schedule| - 1]);
      StepKeepsLogged(Exec(s, schedule[..|schedule| - 1]).value, schedule[|schedule| - 1]);
    }
  }

  lemma ReachableIsLogged(s: Broker)
    requires Reachable(s)
    ensures Inv(s) && Logged(s.calls, s.history)
  {
    ReachableIsSound(s);
    var now: Time, reaping: bool, schedule: seq<Step> :| Exec(New(now, reaping), schedule) == Some(s);
    ExecKeepsLogged(New(now, reaping), schedule);
  }

  // ---------------------------------------------------------------- every call takes effect at most once

  /** The places of a call's events in the log. */
  function EventsOf(history: seq<Event>, i: nat): set<nat> {
    set k: nat | k < |history| && history[k].call == i
  }

  /** Place `k` holds what the call returned, or is about to return, and that is right for the table of that moment: a
      token minted is new, an answer to a validation is the table's. */
  ghost predicate TookEffectAt(s: Broker, i: nat, k: nat) {
    EventsOf(s.history, i) == {k} && k < |s.history| && EventBy(s.calls, s.history[k]) && EventOk(s.history, k)
  }

  /** A call of any kind that has taken effect has done so at one moment, and one that has not, or that returned an
      error of its own checks, at none. */
  lemma OneEventPerCall(s: Broker, i: nat)
    requires Reachable(s) && i < |s.calls|
    ensures Effective(s.calls[i]) ==> exists k :: TookEffectAt(s, i, k)
    ensures !Effective(s.calls[i]) ==> EventsOf(s.history, i) == {}
  {
    ReachableIsLogged(s);
    if Effective(s.calls[i]) {
      assert CallOk(s.calls[i], i, s.history);
      var k: nat :| k < |s.history| && s.history[k].call == i && EventOf(s.calls[i], s.history[k]);
      OnlyEvent(s.history, i, k);
      assert EventBy(s.calls, s.history[k]) && EventOk(s.history, k);
      assert TookEffectAt(s, i, k);
    } else {
      NoEventYet(s.calls, s.history, i);
    }
  }

  lemma OnlyEvent(history: seq<Event>, i: nat, k: nat)
    requires OncePerCall(history) && k < |history| && history[k].call == i
    ensures EventsOf(history, i) == {k}
  {
    forall j: nat | j in EventsOf(history, i)
      ensures j == k
    {
      assert j < k || k < j || j == k;
    }
  }

  // ---------------------------------------------------------------- validation is exact

  predicate Grants(t: Table, now: Time, token: Token, scope: string, organization: Option<string>) {
    && token in t.issued && token !in t.revoked
    && now < t.issued[token].expiry
    && t.issued[token].scope == scope
    && (organization.Some? ==> t.issued[token].organization == organization.value)
  }

  /** Until Close wipes the map, a lookup succeeds exactly when the token was issued, has not been revoked, is strictly
      before its expiry and matches the scope, and for ValidateForOrg the organization. */
  lemma ValidateSucceedsIff(s: Broker, i: nat)
    requires Reachable(s) && !s.wiped && i < |s.calls| && s.calls[i].Validate? && s.calls[i].pc == Lookup
    ensures var c := s.calls[i];
      ValidateStep(s, i).calls[i].pc == Returned(Valid)
      <==> Grants(Replay(s.history), s.now, c.token, c.scope, c.organization)
  {
    ReachableIsSound(s);
  }

  /** Every validation that got past its entry checks returned what the never-cleaned table answers at one moment
      while it ran; "no such token" may stand for "expired" once the entry has been cleaned up. */
  lemma ValidationIsLinearized(s: Broker, i: nat) returns (k: nat)
    requires Reachable(s) && i < |s.calls| && s.calls[i].Validate?
    requires s.calls[i].pc.Returned? && FromLookup(s.calls[i].pc.answer)
    ensures var c := s.calls[i];
      && k < |s.history| && s.history[k].Checked? && s.history[k].call == i
      && (s.history[k].open ==>
            Agrees(c.pc.answer, Ask(Replay(s.history[..k]), s.history[k].at, c.token, c.scope, c.organization)))
    ensures !s.wiped ==> s.history[k].open
  {
    ReachableIsLogged(s);
    var c := s.calls[i];
    assert CallOk(c, i, s.history);
    k :| 0 <= k < |s.history| && s.history[k].call == i && EventOf(c, s.history[k]);
    assert EventBy(s.calls, s.history[k]) && EventOk(s.history, k);
  }

  /** The log respects real time: a call that has taken effect before another begins stands before it. */
  lemma HistoryRespectsRealTime(s: Broker, schedule: seq<Step>, k: nat)
    requires Reachable(s) && Exec(s, schedule).Some? && k < |Exec(s, schedule).value.history|
    ensures s.history <= Exec(s, schedule).value.history
    ensures Exec(s, schedule).value.history[k].call >= |s.calls| ==> k >= |s.history|
  {
    HistoryGrows(s, schedule);
    ReachableIsLogged(s);
    if k < |s.history| { assert EventBy(s.calls, s.history[k]); }
  }

  lemma {:induction false} HistoryGrows(s: Broker, schedule: seq<Step>)
    requires Exec(s, schedule).Some?
    ensures s.history <= Exec(s, schedule).value.history
  {
    if schedule != [] {
      HistoryGrows(s, schedule[..|schedule| - 1]);
      StepExtendsHistory(Exec(s, schedule[..|schedule| - 1]).value, schedule[|schedule| - 1]);
    }
  }

  lemma StepExtendsHistory(s: Broker, step: Step)
    requires Enabled(s, step)
    ensures s.history <= Apply(s, step).history
  {
    if step.RunCall? { CallExtendsHistory(s, step.i, step.draw); }
  }

  lemma CallExtendsHistory(s: Broker, i: nat, draw: Draw)
    requires CallReady(s, i, draw)
    ensures s.history <= Apply(s, RunCall(i, draw)).history
  {
    match s.calls[i]
    case Issue(_, _, _, _) => assert s.history <= IssueStep(s, i, draw).history;
    case Validate(_, _, _, _, _) => assert s.history <= ValidateStep(s, i).history;
    case Revoke(_, _) => assert s.history <= RevokeStep(s, i).history;
  }

  // ---------------------------------------------------------------- expired and revoked stay so

  predicate Dead(t: Table, at: Time, token: Token) {
    token in t.issued && (token in t.revoked || at >= t.issued[token].expiry)
  }

  lemma {:induction false} TableOnlyGrows(history: seq<Event>, i: nat, j: nat, token: Token)
    requires i <= j <= |history| && token in Replay(history[..i]).issued
    requires forall k :: 0 <= k < |history| ==> EventOk(history, k)
    ensures token in Replay(history[..j]).issued
    ensures Replay(history[..j]).issued[token] == Replay(history[..i]).issued[token]
    ensures token in Replay(history[..i]).revoked ==> token in Replay(history[..j]).revoked
  {
    if i < j {
      TableOnlyGrows(history, i, j - 1, token);
      assert history[..j][..j - 1] == history[..j - 1] && history[..j][j - 1] == history[j - 1];
      assert EventOk(history, j - 1);
    }
  }

  /** A token found expired or revoked at one moment is never validated later. */
  lemma DeadStaysDead(s: Broker, i: nat, j: nat)
    requires Reachable(s) && i < j < |s.history| && s.history[i].Checked? && s.history[j].Checked?
    requires s.history[i].token == s.history[j].token && s.history[j].open
    requires Dead(Replay(s.history[..i]), s.history[i].at, s.history[i].token)
    ensures s.history[j].answer != Valid
  {
    ReachableIsSound(s);
    assert EventOk(s.history, j);
    TableOnlyGrows(s.history, i, j, s.history[i].token);
  }

  /** After a Revoke took effect on an issued token, no later validation of it succeeds. */
  lemma RevokedStaysRevoked(s: Broker, i: nat, j: nat)
    requires Reachable(s) && i < j < |s.history| && s.history[i].Revoked? && s.history[j].Checked?
    requires s.history[i].token == s.history[j].token && s.history[i].token in Replay(s.history[..i]).issued
    requires s.history[j].open
    ensures s.history[j].answer == ErrInvalidToken || s.history[j].answer == ErrTokenExpired
  {
    ReachableIsSound(s);
    var token := s.history[i].token;
    assert EventOk(s.history, j);
    assert s.history[..i + 1][..i] == s.history[..i];
    assert token in Replay(s.history[..i + 1]).revoked;
    TableOnlyGrows(s.history, i + 1, j, token);
  }

  // ---------------------------------------------------------------- cleaning up

  /** Neither the reaper, whose clock reading may be old by the time it has the lock, nor lazy deletion removes a token
      that is still valid. */
  lemma CleanupKeepsLiveTokens(s: Broker, step: Step, token: Token)
    requires Reachable(s) && Enabled(s, step) && token in s.tokens && s.now < s.tokens[token].expiry
    requires step == ReaperSweep ||
      (step.RunCall? && s.calls[step.i].Validate? && s.calls[step.i].pc.DeleteExpired?)
    ensures token in Apply(s, step).tokens && Apply(s, step).tokens[token] == s.tokens[token]
  {
    ReachableIsSound(s);
  }

  /** Once Close has wiped the map it stays empty, whatever calls were past their first check of `closed`. */
  lemma WipeIsFinal(s: Broker, schedule: seq<Step>)
    requires Reachable(s) && s.wiped && Exec(s, schedule).Some?
    ensures Exec(s, schedule).value.tokens == map[] && Exec(s, schedule).value.wiped
  {
    ReachableIsSound(s);
    ExecKeepsInv(s, schedule);
    StaysWiped(s, schedule);
  }

  lemma {:induction false} StaysWiped(s: Broker, schedule: seq<Step>)
    requires s.wiped && Exec(s, schedule).Some?
    ensures Exec(s, schedule).value.wiped
  {
    if schedule != [] {
      StaysWiped(s, schedule[..|schedule| - 1]);
    }
  }

  // ---------------------------------------------------------------- organizations

  /** A validation for an organization succeeds only on a token that IssueForOrg minted for that organization and that
      scope; tokens of Issue never pass. */
  lemma OrganizationsAreSeparate(s: Broker, j: nat) returns (i: nat)
    requires Reachable(s) && j < |s.history| && s.history[j].Checked? && s.history[j].open
    requires s.history[j].answer == Valid && s.history[j].organization.Some?
    ensures i < j && s.history[i].Issued? && s.history[i].token == s.history[j].token
    ensures s.history[i].call < |s.calls| && s.calls[s.history[i].call].Issue?
    ensures s.calls[s.history[i].call].organization == s.history[j].organization
    ensures s.calls[s.history[i].call].scope == s.history[j].scope
  {
    ReachableIsLogged(s);
    var e := s.history[j];
    assert EventOk(s.history, j) && EventBy(s.calls, e);
    i := IssuingEvent(s.history[..j], e.token);
    assert s.history[..j][i] == s.history[i];
    assert EventBy(s.calls, s.history[i]);
  }

  lemma {:induction false} IssuingEvent(history: seq<Event>, token: Token) returns (i: nat)
    requires token in Replay(history).issued
    ensures i < |history| && history[i].Issued? && history[i].token == token
    ensures Replay(history).issued[token] == history[i].entry
  {
    var n := |history| - 1;
    if history[n].Issued? && history[n].token == token {
      i := n;
    } else {
      i := IssuingEvent(history[..n], token);
      assert history[..n][i] == history[i];
    }
  }
}
