/** How long a token lives, and what each answer of the broker means (core/pkg/capability/broker.go). */
module BrokerLifetime {
  import opened CapabilityBroker
  import opened BrokerTheorems
  import opened Options

  // ---------------------------------------------------------------- from the ttl to the expiry

  /** A call that began at time `began` with this scope, organization and ttl, before it inserts its token. */
  predicate Stamped(c: Call, asked: Call, began: Time, now: Time)
    requires asked.Issue?
  {
    && c.Issue? && c.scope == asked.scope && c.organization == asked.organization && c.ttl == asked.ttl && began <= now
    && (c.pc.Insert? ==> began + c.ttl <= c.pc.expiry <= now + c.ttl)
  }

  lemma StepKeepsStamp(s: Broker, step: Step, i: nat, asked: Call, began: Time)
    requires Enabled(s, step) && i < |s.calls| && asked.Issue? && Stamped(s.calls[i], asked, began, s.now)
    ensures i < |Apply(s, step).calls| && Stamped(Apply(s, step).calls[i], asked, began, Apply(s, step).now)
  {
    if step.RunCall? {
      CallKeepsNow(s, step.i, step.draw);
      if step.i == i { assert Apply(s, step) == IssueStep(s, i, step.draw); }
    }
  }

  /** A step of one call leaves the clock, the other calls, the closed flag and the reaper alone. */
  lemma CallKeepsNow(s: Broker, i: nat, draw: Draw)
    requires CallReady(s, i, draw)
    ensures var s' := Apply(s, RunCall(i, draw));
      && s'.now == s.now && s'.closed == s.closed && s'.reaper == s.reaper && |s'.calls| == |s.calls|
      && forall j :: 0 <= j < |s.calls| && j != i ==> s'.calls[j] == s.calls[j]
  {
    match s.calls[i]
    case Issue(_, _, _, _) =>
    case Validate(_, _, _, _, _) =>
    case Revoke(_, _) =>
  }

  lemma {:induction false} RunKeepsStamp(s: Broker, schedule: seq<Step>, i: nat, asked: Call, began: Time)
    requires Exec(s, schedule).Some? && i < |s.calls| && asked.Issue? && Stamped(s.calls[i], asked, began, s.now)
    ensures var s' := Exec(s, schedule).value; i < |s'.calls| && Stamped(s'.calls[i], asked, began, s'.now)
  {
    if schedule != [] {
      var n := |schedule| - 1;
      RunKeepsStamp(s, schedule[..n], i, asked, began);
      StepKeepsStamp(Exec(s, schedule[..n]).value, schedule[n], i, asked, began);
    }
  }

  // ---------------------------------------------------------------- from the insert on

  /** The token has not been struck since place `from` of the log. */
  predicate UnrevokedSince(history: seq<Event>, from: nat, token: Token) {
    forall k :: from <= k < |history| && history[k].Revoked? ==> history[k].token != token
  }

  lemma {:induction false} StaysUnrevoked(history: seq<Event>, from: nat, token: Token)
    requires from <= |history| && UnrevokedSince(history, from, token)
    requires token in Replay(history[..from]).issued && token !in Replay(history[..from]).revoked
    ensures token !in Replay(history).revoked
  {
    if from == |history| {
      assert history[..from] == history;
    } else {
      var n := |history| - 1;
      assert history[..n][..from] == history[..from];
      StaysUnrevoked(history[..n], from, token);
    }
  }

  lemma ExecReachable(s: Broker, schedule: seq<Step>)
    requires Reachable(s) && Exec(s, schedule).Some?
    ensures Reachable(Exec(s, schedule).value)
  {
    var now: Time, reaping: bool, before: seq<Step> :| Exec(New(now, reaping), before) == Some(s);
    ExecConcat(New(now, reaping), before, schedule);
  }

  lemma {:induction false} ExecConcat(s: Broker, a: seq<Step>, b: seq<Step>)
    requires Exec(s, a).Some?
    ensures Exec(s, a + b) == Exec(Exec(s, a).value, b)
  {
    if b == [] {
      assert a + b == a;
    } else {
      var n := |b| - 1;
      assert (a + b)[..|a + b| - 1] == a + b[..n];
      ExecConcat(s, a, b[..n]);
    }
  }

  lemma NextReachable(s: Broker, step: Step)
    requires Reachable(s) && Enabled(s, step)
    ensures Reachable(Apply(s, step))
  {
    assert [step][..0] == [];
    assert Exec(s, []) == Some(s) && Exec(s, [step]) == Some(Apply(s, step));
    ExecReachable(s, [step]);
  }

  /** The step that inserts a token enters it into the table as it was asked for. */
  lemma InsertEnters(s: Broker, i: nat)
    requires Reachable(s) && i < |s.calls| && s.calls[i].Issue? && s.calls[i].pc.Insert? && !s.closed
    ensures var c, s1 := s.calls[i], Apply(s, RunCall(i, DrawFailed));
      && Reachable(s1) && |s1.history| == |s.history| + 1
      && c.pc.token in Replay(s1.history).issued && Replay(s1.history).issued[c.pc.token] == NewEntry(c, c.pc.expiry)
      && c.pc.token !in Replay(s1.history).revoked
  {
    var c := s.calls[i];
    ReachableIsSound(s);
    assert Carried(c) == Some(c.pc.token) && CarryOk(c.pc.token, s.drawn, Replay(s.history));
    NextReachable(s, RunCall(i, DrawFailed));
    ReplayAppend(s.history, Issued(i, c.pc.token, NewEntry(c, c.pc.expiry)));
  }

  /** A table entry stays as it is, and stays unless it is revoked. */
  lemma EntryStays(s: Broker, after: seq<Step>, token: Token)
    requires Reachable(s) && Exec(s, after).Some?
    requires token in Replay(s.history).issued && token !in Replay(s.history).revoked
    ensures var s2 := Exec(s, after).value;
      && Reachable(s2)
      && token in Replay(s2.history).issued && Replay(s2.history).issued[token] == Replay(s.history).issued[token]
      && (UnrevokedSince(s2.history, |s.history|, token) ==> token !in Replay(s2.history).revoked)
  {
    var n, s2 := |s.history|, Exec(s, after).value;
    ExecReachable(s, after);
    ReachableIsSound(s2);
    HistoryGrows(s, after);
    assert s2.history[..n] == s.history && s2.history[..|s2.history|] == s2.history;
    TableOnlyGrows(s2.history, n, |s2.history|, token);
    if UnrevokedSince(s2.history, n, token) { StaysUnrevoked(s2.history, n, token); }
  }

  /** After the step that inserts a token, and whatever runs after it. */
  lemma InsertedEntry(s: Broker, i: nat, after: seq<Step>)
    requires Reachable(s) && i < |s.calls| && s.calls[i].Issue? && s.calls[i].pc.Insert? && !s.closed
    requires Exec(Apply(s, RunCall(i, DrawFailed)), after).Some?
    ensures var c, s2 := s.calls[i], Exec(Apply(s, RunCall(i, DrawFailed)), after).value;
      var token := c.pc.token;
      && token in Replay(s2.history).issued && Replay(s2.history).issued[token] == NewEntry(c, c.pc.expiry)
      && (UnrevokedSince(s2.history, |s.history|, token) ==> token !in Replay(s2.history).revoked)
      && Reachable(s2)
  {
    InsertEnters(s, i);
    EntryStays(Apply(s, RunCall(i, DrawFailed)), after, s.calls[i].pc.token);
  }

  /** A lookup of a token in the table. */
  lemma LookupOfEntry(s: Broker, j: nat)
    requires Reachable(s) && j < |s.calls| && s.calls[j].Validate? && s.calls[j].pc == Lookup
    requires s.calls[j].token in Replay(s.history).issued
    ensures var v, entry := s.calls[j], Replay(s.history).issued[s.calls[j].token];
      var succeeds := ValidateStep(s, j).calls[j].pc == Returned(Valid);
      var right := s.now < entry.expiry && v.scope == entry.scope && (v.organization.Some? ==> v.organization.value == entry.organization);
      && (succeeds ==> right)
      && (!s.wiped && v.token !in Replay(s.history).revoked && right ==> succeeds)
  {
    ReachableIsSound(s);
    if !s.wiped { ValidateSucceedsIff(s, j); }
  }

  /** What a validation in progress asks for is what an issuing call was given. */
  predicate Asks(v: Call, issue: Call)
    requires v.Validate? && issue.Issue?
  {
    v.scope == issue.scope && (v.organization.Some? ==> v.organization == issue.organization)
  }

  /** The life of a token, from Issue or IssueForOrg to a lookup of Validate or ValidateForOrg.  The call began in `s0`
      and inserted the token in `s1`; the lookup happens in `s2`.  Before the beginning plus the ttl it succeeds, as long
      as the token has not been revoked and the map not been wiped, exactly for the call's scope and organization; from
      the insert plus the ttl on it never does. */
  lemma TokensLiveForTheirTtl(s0: Broker, issue: Call, before: seq<Step>, after: seq<Step>, j: nat)
    requires Reachable(s0) && issue.Issue? && Enabled(s0, Start(issue)) && Exec(Apply(s0, Start(issue)), before).Some?
    requires var s1 := Exec(Apply(s0, Start(issue)), before).value;
      && |s0.calls| < |s1.calls| && s1.calls[|s0.calls|].pc.Insert? && s1.calls[|s0.calls|].Issue? && !s1.closed
      && Exec(Apply(s1, RunCall(|s0.calls|, DrawFailed)), after).Some?
    requires var s1 := Exec(Apply(s0, Start(issue)), before).value;
      var s2 := Exec(Apply(s1, RunCall(|s0.calls|, DrawFailed)), after).value;
      && j < |s2.calls| && s2.calls[j].Validate? && s2.calls[j].pc == Lookup
      && s2.calls[j].token == s1.calls[|s0.calls|].pc.token
    ensures var s1 := Exec(Apply(s0, Start(issue)), before).value;
      var s2 := Exec(Apply(s1, RunCall(|s0.calls|, DrawFailed)), after).value;
      var succeeds := ValidateStep(s2, j).calls[j].pc == Returned(Valid);
      && (s2.now < s0.now + issue.ttl && !s2.wiped && UnrevokedSince(s2.history, |s1.history|, s2.calls[j].token) ==>
            (succeeds <==> Asks(s2.calls[j], issue)))
      && (s2.now >= s1.now + issue.ttl ==> !succeeds)
      && (succeeds ==> Asks(s2.calls[j], issue))
  {
    var i := |s0.calls|;
    NextReachable(s0, Start(issue));
    ExecReachable(Apply(s0, Start(issue)), before);
    RunKeepsStamp(Apply(s0, Start(issue)), before, i, issue, s0.now);
    var s1 := Exec(Apply(s0, Start(issue)), before).value;
    InsertedEntry(s1, i, after);
    var s2 := Exec(Apply(s1, RunCall(i, DrawFailed)), after).value;
    ReachableIsLogged(s2);
    assert CallOk(s2.calls[j], j, s2.history);
    LookupOfEntry(s2, j);
  }

  /** The steps of an issuing call on an open broker: with acceptable arguments it draws; a generator that fails fails it;
      a token drawn is stamped with the clock and goes into the table as it was asked for. */
  lemma IssueBegins(s: Broker, i: nat)
    requires !s.closed && i < |s.calls| && s.calls[i].Issue? && s.calls[i].pc == Begin
    requires s.calls[i].scope != "" && s.calls[i].organization != Some("") && s.calls[i].ttl > 0
    ensures Apply(s, RunCall(i, DrawFailed)) == Became(s, i, Generate)
  {
  }

  lemma IssueDraws(s: Broker, i: nat, token: Token)
    requires i < |s.calls| && s.calls[i].Issue? && s.calls[i].pc == Generate && token !in s.drawn
    ensures Apply(s, RunCall(i, DrawFailed)) == Became(s, i, Returned(ErrGenerate))
    ensures Apply(s, RunCall(i, Draw(token))) == Became(s, i, Stamp(token)).(drawn := s.drawn + {token})
  {
  }

  lemma IssueInserts(s: Broker, i: nat, token: Token)
    requires !s.closed && i < |s.calls| && s.calls[i].Issue? && s.calls[i].pc == Stamp(token) && s.calls[i].ttl > 0
    ensures var c := s.calls[i];
      var s1 := Apply(s, RunCall(i, DrawFailed));
      && Enabled(s1, RunCall(i, DrawFailed))
      && var s2 := Apply(s1, RunCall(i, DrawFailed));
         && s2.calls[i].pc == Returned(Minted(token))
         && s2.tokens
            == s.tokens[token := Entry(c.scope, if c.organization.Some? then c.organization.value else "", s.now + c.ttl)]
  {
  }

  /** An issuing call that nobody interrupts mints the token drawn, good for exactly its ttl from now; when the generator
      fails, so does it. */
  lemma IssueAlone(s: Broker, i: nat, token: Token)
    requires !s.closed && i < |s.calls| && s.calls[i].Issue? && s.calls[i].pc == Begin && token !in s.drawn
    requires s.calls[i].scope != "" && s.calls[i].organization != Some("") && s.calls[i].ttl > 0
    ensures var c, go := s.calls[i], RunCall(i, DrawFailed);
      var s1 := Apply(s, go);
      && Enabled(s1, go) && Apply(s1, go).calls[i].pc == Returned(ErrGenerate) && Apply(s1, go).tokens == s.tokens
      && Enabled(s1, RunCall(i, Draw(token)))
      && var s2 := Apply(s1, RunCall(i, Draw(token)));
         && Enabled(s2, go) && Enabled(Apply(s2, go), go)
         && var s4 := Apply(Apply(s2, go), go);
            && s4.calls[i].pc == Returned(Minted(token))
            && s4.tokens
               == s.tokens[token := Entry(c.scope, if c.organization.Some? then c.organization.value else "", s.now + c.ttl)]
  {
    IssueBegins(s, i);
    var s1 := Apply(s, RunCall(i, DrawFailed));
    IssueDraws(s1, i, token);
    IssueInserts(Apply(s1, RunCall(i, Draw(token))), i, token);
  }

  // ---------------------------------------------------------------- the reaper

  predicate NoSweep(schedule: seq<Step>) { forall k :: 0 <= k < |schedule| ==> schedule[k] != ReaperSweep }

  lemma {:induction false} SampleStays(s: Broker, schedule: seq<Step>)
    requires s.reaper.Sampled? && Exec(s, schedule).Some? && NoSweep(schedule)
    ensures Exec(s, schedule).value.reaper == s.reaper
  {
    if schedule != [] {
      var n := |schedule| - 1;
      SampleStays(s, schedule[..n]);
      StepKeepsSample(Exec(s, schedule[..n]).value, schedule[n]);
    }
  }

  lemma StepKeepsSample(s: Broker, step: Step)
    requires s.reaper.Sampled? && Enabled(s, step) && step != ReaperSweep
    ensures Apply(s, step).reaper == s.reaper
  {
    if step.RunCall? { CallKeepsNow(s, step.i, step.draw); }
  }

  /** A turn of the reaper, with anything happening between its clock reading and its lock: afterwards the map holds
      exactly those of its tokens that had not expired at the reading. */
  lemma SweepRemovesWhatHadExpired(s: Broker, between: seq<Step>)
    requires Enabled(s, ReaperSample) && Exec(Apply(s, ReaperSample), between).Some? && NoSweep(between)
    ensures var s2 := Exec(Apply(s, ReaperSample), between).value;
      && Enabled(s2, ReaperSweep)
      && forall token :: token in Apply(s2, ReaperSweep).tokens <==> token in s2.tokens && s.now < s2.tokens[token].expiry
  {
    SampleStays(Apply(s, ReaperSample), between);
  }

  // ---------------------------------------------------------------- what the answers mean

  /** What the table's answer to a validation means, answer by answer. */
  lemma TableAnswers(t: Table, at: Time, token: Token, scope: string, organization: Option<string>)
    ensures var answer := Ask(t, at, token, scope, organization);
      && (answer == Valid <==> Grants(t, at, token, scope, organization))
      && (answer == ErrInvalidToken <==> token !in t.issued || token in t.revoked)
      && (answer == ErrTokenExpired <==> token in t.issued && token !in t.revoked && t.issued[token].expiry <= at)
      && (answer == ErrScopeMismatch <==>
            token in t.issued && token !in t.revoked && at < t.issued[token].expiry && t.issued[token].scope != scope)
      && (answer == ErrOrganizationMismatch <==>
            && token in t.issued && token !in t.revoked && at < t.issued[token].expiry && t.issued[token].scope == scope
            && organization.Some? && t.issued[token].organization != organization.value)
  {
  }

  /** How far each kind of call can come, with what it was given, and what a refusal says about it.  `closed` is only
      ever said by a closed broker. */
  predicate RefusalOk(c: Call, closed: bool) {
    match c
    case Issue(scope, organization, ttl, pc) =>
      (match pc
       case Begin => true
       case Returned(answer) =>
         if scope == "" then answer == ErrInvalidScope
         else if organization == Some("") then answer == ErrInvalidOrganization
         else if ttl <= 0 then answer == ErrInvalidTTL
         else answer.Minted? || answer == ErrGenerate || (answer == ErrClosed && closed)
       case _ => scope != "" && organization != Some("") && ttl > 0)
    case Validate(alive, _, _, organization, pc) =>
      (match pc
       case Begin => true
       case Returned(answer) =>
         if !alive then answer == ErrContext
         else if organization == Some("") then answer == ErrInvalidOrganization
         else FromLookup(answer) || (answer == ErrClosed && closed)
       case _ => alive && organization != Some(""))
    case Revoke(_, pc) => pc.Returned? ==> pc.answer == Done || (pc.answer == ErrClosed && closed)
  }

  lemma IssueKeepsRefusals(s: Broker, i: nat, draw: Draw)
    requires CallReady(s, i, draw) && s.calls[i].Issue? && RefusalOk(s.calls[i], s.closed)
    ensures |IssueStep(s, i, draw).calls| == |s.calls| && RefusalOk(IssueStep(s, i, draw).calls[i], s.closed)
  {
  }

  lemma ValidateKeepsRefusals(s: Broker, i: nat)
    requires CallReady(s, i, DrawFailed) && s.calls[i].Validate? && RefusalOk(s.calls[i], s.closed)
    ensures |ValidateStep(s, i).calls| == |s.calls| && RefusalOk(ValidateStep(s, i).calls[i], s.closed)
  {
  }

  lemma RevokeKeepsRefusals(s: Broker, i: nat)
    requires CallReady(s, i, DrawFailed) && s.calls[i].Revoke? && RefusalOk(s.calls[i], s.closed)
    ensures |RevokeStep(s, i).calls| == |s.calls| && RefusalOk(RevokeStep(s, i).calls[i], s.closed)
  {
  }

  lemma CallKeepsRefusals(s: Broker, i: nat, draw: Draw)
    requires CallReady(s, i, draw) && RefusalOk(s.calls[i], s.closed)
    ensures RefusalOk(Apply(s, RunCall(i, draw)).calls[i], s.closed) && Apply(s, RunCall(i, draw)).closed == s.closed
  {
    CallKeepsNow(s, i, draw);
    match s.calls[i]
    case Issue(_, _, _, _) => IssueKeepsRefusals(s, i, draw);
    case Validate(_, _, _, _, _) => ValidateKeepsRefusals(s, i);
    case Revoke(_, _) => RevokeKeepsRefusals(s, i);
  }

  ghost predicate Refusals(s: Broker) {
    forall i :: 0 <= i < |s.calls| ==> RefusalOk(s.calls[i], s.closed)
  }

  lemma StepKeepsRefusals(s: Broker, step: Step)
    requires Refusals(s) && Enabled(s, step)
    ensures Refusals(Apply(s, step))
  {
    if step.RunCall? {
      CallKeepsNow(s, step.i, step.draw);
      CallKeepsRefusals(s, step.i, step.draw);
    }
  }

  lemma {:induction false} ExecRefusals(now: Time, reaping: bool, schedule: seq<Step>)
    requires Exec(New(now, reaping), schedule).Some?
    ensures Refusals(Exec(New(now, reaping), schedule).value)
  {
    if schedule != [] {
      var n := |schedule| - 1;
      ExecRefusals(now, reaping, schedule[..n]);
      StepKeepsRefusals(Exec(New(now, reaping), schedule[..n]).value, schedule[n]);
    }
  }

  /** What a call's refusal means, whatever ran beside it: the first of its own checks that fails, in their order, and
      "closed" only from a broker whose Close has been called. */
  lemma RefusalsAreRight(s: Broker, i: nat)
    requires Reachable(s) && i < |s.calls|
    ensures RefusalOk(s.calls[i], s.closed)
  {
    var now: Time, reaping: bool, schedule: seq<Step> :| Exec(New(now, reaping), schedule) == Some(s);
    ExecRefusals(now, reaping, schedule);
  }
}
