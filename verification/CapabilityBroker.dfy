/**
 The capability broker (core/pkg/capability/broker.go) as a step relation: issuers, validators and revokers race with
 the reaper and with Close.  Each critical section under `b.mu` is one step, as is each load of `closed` and each
 reading of the clock outside the lock.

 `history` is the linearization log: no step reads it.  Replayed on a table that never cleans up, it gives every
 validation the answer it returned.
 */
module CapabilityBroker {
  import opened Options

  type Token = nat
  type Time = nat

  datatype Entry = Entry(scope: string, organization: string, expiry: Time)

  datatype Answer =
    | Valid
    | Minted(token: Token)
    | Done
    | ErrInvalidScope
    | ErrInvalidOrganization
    | ErrInvalidTTL
    | ErrClosed
    | ErrGenerate
    | ErrContext
    | ErrInvalidToken
    | ErrTokenExpired
    | ErrScopeMismatch
    | ErrOrganizationMismatch

  datatype PC =
    | Begin
    | Generate
    | Stamp(token: Token)                       // the token is drawn; next the clock is read
    | Insert(token: Token, expiry: Time)
    | Lookup
    | DeleteExpired
    | Delete
    | Returned(answer: Answer)

  /** `organization` is None for Issue and Validate, Some for IssueForOrg and ValidateForOrg. */
  datatype Call =
    | Issue(scope: string, organization: Option<string>, ttl: int, pc: PC)
    | Validate(alive: bool, token: Token, scope: string, organization: Option<string>, pc: PC)
    | Revoke(token: Token, pc: PC)

  datatype ReaperPC = NoReaper | Ticking | Sampled(at: Time) | Gone

  datatype ClosePC = CloseIdle | CloseSignal | CloseJoin | CloseWipe | CloseDone

  /** What a call did to the table at the moment it took effect; `open` until Close has wiped the map. */
  datatype Event =
    | Issued(call: nat, token: Token, entry: Entry)
    | Revoked(call: nat, token: Token)
    | Checked(call: nat, token: Token, scope: string, organization: Option<string>, at: Time, open: bool, answer: Answer)

  datatype Broker = Broker(
    now: Time, tokens: map<Token, Entry>, closed: bool, done: bool, wiped: bool,
    reaper: ReaperPC, closer: ClosePC, drawn: set<Token>, calls: seq<Call>, history: seq<Event>)

  function New(now: Time, reaping: bool): Broker {
    Broker(now, map[], false, false, false, if reaping then Ticking else NoReaper, CloseIdle, {}, [], [])
  }

  // ---------------------------------------------------------------- the table that never cleans up

  datatype Table = Table(issued: map<Token, Entry>, revoked: set<Token>)

  /** Revoking a token that was never issued has no effect. */
  function Strike(t: Table, token: Token): Table {
    if token in t.issued then t.(revoked := t.revoked + {token}) else t
  }

  /** What one event does to the table. */
  function Record(t: Table, e: Event): Table {
    if e.Issued? then t.(issued := t.issued[e.token := e.entry])
    else if e.Revoked? then Strike(t, e.token)
    else t
  }

  function Replay(history: seq<Event>): Table {
    if history == [] then Table(map[], {}) else Record(Replay(history[..|history| - 1]), history[|history| - 1])
  }

  function Match(e: Entry, scope: string, organization: Option<string>): Answer {
    if e.scope != scope then ErrScopeMismatch
    else if organization.Some? && e.organization != organization.value then ErrOrganizationMismatch
    else Valid
  }

  /** What the table answers at time `at`. */
  function Ask(t: Table, at: Time, token: Token, scope: string, organization: Option<string>): Answer {
    if token !in t.issued || token in t.revoked then ErrInvalidToken
    else if at >= t.issued[token].expiry then ErrTokenExpired
    else Match(t.issued[token], scope, organization)
  }

  // ---------------------------------------------------------------- steps

  /** What the environment decides in a step: a fresh token, or a failure of the generator. */
  datatype Draw = Draw(token: Token) | DrawFailed

  function CheckIssue(c: Call, closed: bool): PC
    requires c.Issue?
  {
    if c.scope == "" then Returned(ErrInvalidScope)
    else if c.organization == Some("") then Returned(ErrInvalidOrganization)
    else if c.ttl <= 0 then Returned(ErrInvalidTTL)
    else if closed then Returned(ErrClosed)
    else Generate
  }

  function CheckValidate(c: Call, closed: bool): PC
    requires c.Validate?
  {
    if !c.alive then Returned(ErrContext)
    else if c.organization == Some("") then Returned(ErrInvalidOrganization)
    else if closed then Returned(ErrClosed)
    else Lookup
  }

  function NewEntry(c: Call, expiry: Time): Entry
    requires c.Issue?
  {
    Entry(c.scope, if c.organization.Some? then c.organization.value else "", expiry)
  }

  predicate CallReady(s: Broker, i: nat, draw: Draw) {
    i < |s.calls| &&
    match s.calls[i]
    case Issue(_, _, ttl, pc) =>
      (match pc
       case Begin => true
       case Generate => draw.Draw? ==> draw.token !in s.drawn
       case Stamp(_) => ttl > 0
       case Insert(_, _) => true
       case _ => false)
    case Validate(_, _, _, _, pc) => pc.Begin? || pc.Lookup? || pc.DeleteExpired?
    case Revoke(_, pc) => pc.Begin? || pc.Delete?
  }

  function At(c: Call, pc: PC): Call { c.(pc := pc) }

  function Became(s: Broker, i: nat, pc: PC): Broker
    requires i < |s.calls|
  {
    s.(calls := s.calls[i := At(s.calls[i], pc)])
  }

  function IssueStep(s: Broker, i: nat, draw: Draw): Broker
    requires CallReady(s, i, draw) && s.calls[i].Issue?
  {
    var c := s.calls[i];
    match c.pc
    case Begin => Became(s, i, CheckIssue(c, s.closed))
    case Generate =>
      if draw.DrawFailed? then Became(s, i, Returned(ErrGenerate))
      else Became(s, i, Stamp(draw.token)).(drawn := s.drawn + {draw.token})
    case Stamp(token) => Became(s, i, Insert(token, s.now + c.ttl))
    case Insert(token, expiry) =>
      if s.closed then Became(s, i, Returned(ErrClosed))
      else
        Became(s, i, Returned(Minted(token)))
          .(tokens := s.tokens[token := NewEntry(c, expiry)],
            history := s.history + [Issued(i, token, NewEntry(c, expiry))])
    case _ => s
  }

  /** The answer under the read lock. */
  function LookupAnswer(s: Broker, token: Token, scope: string, organization: Option<string>): Answer {
    if token !in s.tokens then ErrInvalidToken
    else if s.now >= s.tokens[token].expiry then ErrTokenExpired
    else Match(s.tokens[token], scope, organization)
  }

  function ValidateStep(s: Broker, i: nat): Broker
    requires CallReady(s, i, DrawFailed) && s.calls[i].Validate?
  {
    var c := s.calls[i];
    match c.pc
    case Begin => Became(s, i, CheckValidate(c, s.closed))
    case Lookup =>
      var answer := LookupAnswer(s, c.token, c.scope, c.organization);
      Became(s, i, if answer == ErrTokenExpired then DeleteExpired else Returned(answer))
        .(history := s.history + [Checked(i, c.token, c.scope, c.organization, s.now, !s.wiped, answer)])
    case DeleteExpired =>
      // the entry is looked up again under the write lock, and the clock read again
      Became(s, i, Returned(ErrTokenExpired))
        .(tokens := if c.token in s.tokens && s.now >= s.tokens[c.token].expiry then s.tokens - {c.token} else s.tokens)
    case _ => s
  }

  function RevokeStep(s: Broker, i: nat): Broker
    requires CallReady(s, i, DrawFailed) && s.calls[i].Revoke?
  {
    var c := s.calls[i];
    match c.pc
    case Begin => Became(s, i, if s.closed then Returned(ErrClosed) else Delete)
    case Delete =>
      Became(s, i, Returned(Done))
        .(tokens := s.tokens - {c.token}, history := s.history + [Revoked(i, c.token)])
    case _ => s
  }

  /** What survives a sweep with a clock reading of `at`. */
  function Unexpired(tokens: map<Token, Entry>, at: Time): map<Token, Entry> {
    map token | token in tokens && at < tokens[token].expiry :: tokens[token]
  }

  datatype Step =
    | Start(call: Call)
    | RunCall(i: nat, draw: Draw)
    | Tick(now: Time)          // time passes
    | ReaperSample             // pruneExpired reads the clock before it takes the lock
    | ReaperSweep
    | ReaperExit
    | StartClose
    | CloseStep

  predicate Enabled(s: Broker, step: Step) {
    match step
    case Start(call) => call.pc == Begin
    case RunCall(i, draw) => CallReady(s, i, draw)
    case Tick(now) => now >= s.now
    case ReaperSample => s.reaper.Ticking?
    case ReaperSweep => s.reaper.Sampled?
    case ReaperExit => s.reaper.Ticking? && s.done
    case StartClose => s.closer == CloseIdle
    case CloseStep =>
      (match s.closer
       case CloseSignal => true
       case CloseJoin => s.reaper == NoReaper || s.reaper == Gone
       case CloseWipe => true
       case _ => false)
  }

  function Apply(s: Broker, step: Step): Broker
    requires Enabled(s, step)
  {
    match step
    case Start(call) => s.(calls := s.calls + [call])
    case RunCall(i, draw) =>
      (match s.calls[i]
       case Issue(_, _, _, _) => IssueStep(s, i, draw)
       case Validate(_, _, _, _, _) => ValidateStep(s, i)
       case Revoke(_, _) => RevokeStep(s, i))
    case Tick(now) => s.(now := now)
    case ReaperSample => s.(reaper := Sampled(s.now))
    case ReaperSweep => s.(tokens := Unexpired(s.tokens, s.reaper.at), reaper := Ticking)
    case ReaperExit => s.(reaper := Gone)
    case StartClose => s.(closed := true, closer := CloseSignal)
    case CloseStep =>
      (match s.closer
       case CloseSignal => s.(done := true, closer := CloseJoin)
       case CloseJoin => s.(closer := CloseWipe)
       case CloseWipe => s.(tokens := map[], wiped := true, closer := CloseDone)
       case _ => s)
  }

  function Exec(s: Broker, schedule: seq<Step>): Option<Broker> {
    if schedule == [] then Some(s)
    else
      var before := Exec(s, schedule[..|schedule| - 1]);
      var last := schedule[|schedule| - 1];
      if before.Some? && Enabled(before.value, last) then Some(Apply(before.value, last)) else None
  }

  ghost predicate Reachable(s: Broker) {
    exists now: Time, reaping: bool, schedule: seq<Step> :: Exec(New(now, reaping), schedule) == Some(s)
  }

  // ---------------------------------------------------------------- the invariant

  /** The map holds issued tokens only, and until the wipe every token that is neither revoked nor expired. */
  ghost predicate Covers(tokens: map<Token, Entry>, t: Table, now: Time, wiped: bool) {
    && (forall k :: k in t.revoked ==> k in t.issued)
    && (forall k :: k in tokens ==> k in t.issued && t.issued[k] == tokens[k] && k !in t.revoked)
    && (!wiped ==> forall k :: k in t.issued && k !in t.revoked && k !in tokens ==> t.issued[k].expiry <= now)
    && (wiped ==> tokens == map[])
  }

  /** A token that a call carries is drawn, not issued yet, and carried by no other call. */
  function Carried(c: Call): Option<Token> {
    if c.Issue? && c.pc.Stamp? then Some(c.pc.token)
    else if c.Issue? && c.pc.Insert? then Some(c.pc.token)
    else None
  }

  ghost predicate Fresh(calls: seq<Call>, drawn: set<Token>, t: Table) {
    && (forall k :: k in t.issued ==> k in drawn)
    && (forall i :: 0 <= i < |calls| && Carried(calls[i]).Some? ==> CarryOk(Carried(calls[i]).value, drawn, t))
    && (forall i, j :: 0 <= i < j < |calls| && Carried(calls[i]).Some? ==> Carried(calls[i]) != Carried(calls[j]))
  }

  ghost predicate CarryOk(token: Token, drawn: set<Token>, t: Table) {
    token in drawn && token !in t.issued
  }

  predicate Phases(s: Broker) {
    && (s.reaper.Sampled? ==> s.reaper.at <= s.now)
    && (s.wiped <==> s.closer == CloseDone)
    && (s.closed <==> s.closer != CloseIdle)
  }

  /** What the table says, or "no such token" for a token that has expired and been cleaned up. */
  predicate Agrees(answer: Answer, plain: Answer) {
    answer == plain || (plain == ErrTokenExpired && answer == ErrInvalidToken)
  }

  ghost predicate EventOk(history: seq<Event>, i: nat)
    requires i < |history|
  {
    match history[i]
    case Checked(_, token, scope, organization, at, open, answer) =>
      open ==> Agrees(answer, Ask(Replay(history[..i]), at, token, scope, organization))
    case Issued(_, token, _) => token !in Replay(history[..i]).issued
    case Revoked(_, _) => true
  }

  ghost predicate Linear(history: seq<Event>, now: Time, wiped: bool) {
    && (forall i :: 0 <= i < |history| ==> EventOk(history, i))
    && (forall i :: 0 <= i < |history| && history[i].Checked? ==> history[i].at <= now)
    && (forall i, j :: 0 <= i < j < |history| && history[i].Checked? && history[j].Checked? ==> history[i].at <= history[j].at)
    && (!wiped ==> forall i :: 0 <= i < |history| && history[i].Checked? ==> history[i].open)
  }

  ghost predicate Inv(s: Broker) {
    && Covers(s.tokens, Replay(s.history), s.now, s.wiped)
    && Fresh(s.calls, s.drawn, Replay(s.history))
    && Phases(s)
    && Linear(s.history, s.now, s.wiped)
  }

  lemma ReplayAppend(history: seq<Event>, e: Event)
    ensures Replay(history + [e]) == Record(Replay(history), e)
  {
    assert (history + [e])[..|history|] == history;
  }

  /** A new event that is right extends the log. */
  lemma LinearAppend(history: seq<Event>, now: Time, wiped: bool, e: Event)
    requires Linear(history, now, wiped) && EventOk(history + [e], |history|)
    requires e.Checked? ==> e.at == now && e.open == !wiped
    ensures Linear(history + [e], now, wiped)
  {
    var longer := history + [e];
    forall i | 0 <= i < |history|
      ensures EventOk(longer, i)
    {
      assert EventOk(history, i) && longer[..i] == history[..i];
    }
  }

  /** What the map answers is what the table answers, but for expired tokens that are gone. */
  lemma LookupIsAsk(s: Broker, token: Token, scope: string, organization: Option<string>)
    requires Covers(s.tokens, Replay(s.history), s.now, s.wiped) && !s.wiped
    ensures Agrees(LookupAnswer(s, token, scope, organization), Ask(Replay(s.history), s.now, token, scope, organization))
  {
  }

  /** A call moves on, with the token it carried, without it, or with a token nobody has drawn. */
  lemma FreshMove(calls: seq<Call>, drawn: set<Token>, t: Table, i: nat, c: Call, drawn': set<Token>)
    requires Fresh(calls, drawn, t) && i < |calls| && drawn <= drawn'
    requires Carried(c).Some? ==>
      Carried(c) == Carried(calls[i]) || (Carried(c).value !in drawn && Carried(c).value in drawn')
    ensures Fresh(calls[i := c], drawn', t)
  {
    var calls' := calls[i := c];
    forall j | 0 <= j < |calls'| && Carried(calls'[j]).Some?
      ensures CarryOk(Carried(calls'[j]).value, drawn', t)
    {
      if j != i || Carried(c) == Carried(calls[i]) { assert CarryOk(Carried(calls[j]).value, drawn, t); }
    }
    forall j | 0 <= j < |calls| && j != i && Carried(calls[j]).Some?
      ensures Carried(c) != Carried(calls[j])
    {
      assert CarryOk(Carried(calls[j]).value, drawn, t);
      assert j < i || i < j;
    }
  }

  /** The call that carries a token puts it into the table. */
  lemma FreshInsert(calls: seq<Call>, drawn: set<Token>, t: Table, i: nat, c: Call, token: Token, entry: Entry)
    requires Fresh(calls, drawn, t) && i < |calls| && Carried(calls[i]) == Some(token) && Carried(c) == None
    ensures Fresh(calls[i := c], drawn, Table(t.issued[token := entry], t.revoked))
  {
    assert CarryOk(token, drawn, t);
    forall j | 0 <= j < |calls| && j != i && Carried(calls[j]).Some?
      ensures CarryOk(Carried(calls[j]).value, drawn, Table(t.issued[token := entry], t.revoked))
    {
      assert CarryOk(Carried(calls[j]).value, drawn, t);
      assert j < i || i < j;
    }
  }

  /** An event that is right, and the call that caused it. */
  lemma EventKeepsInv(s: Broker, i: nat, c: Call, e: Event, tokens: map<Token, Entry>)
    requires Inv(s) && i < |s.calls| && EventOk(s.history + [e], |s.history|)
    requires e.Checked? ==> e.at == s.now && e.open == !s.wiped
    requires Covers(tokens, Record(Replay(s.history), e), s.now, s.wiped)
    requires Fresh(s.calls[i := c], s.drawn, Record(Replay(s.history), e))
    ensures Inv(s.(calls := s.calls[i := c], tokens := tokens, history := s.history + [e]))
  {
    ReplayAppend(s.history, e);
    LinearAppend(s.history, s.now, s.wiped, e);
  }

  lemma IssueKeepsInv(s: Broker, i: nat, draw: Draw)
    requires Inv(s) && CallReady(s, i, draw) && s.calls[i].Issue?
    ensures Inv(IssueStep(s, i, draw))
  {
    var c := s.calls[i];
    var s' := IssueStep(s, i, draw);
    if c.pc.Insert? && !s.closed {
      InsertKeepsInv(s, i);
    } else {
      FreshMove(s.calls, s.drawn, Replay(s.history), i, s'.calls[i], s'.drawn);
    }
  }

  lemma InsertKeepsInv(s: Broker, i: nat)
    requires Inv(s) && i < |s.calls| && s.calls[i].Issue? && s.calls[i].pc.Insert? && !s.closed
    ensures Inv(IssueStep(s, i, DrawFailed))
  {
    var c, token := s.calls[i], s.calls[i].pc.token;
    var entry := NewEntry(c, c.pc.expiry);
    assert Carried(c) == Some(token) && CarryOk(token, s.drawn, Replay(s.history));
    assert (s.history + [Issued(i, token, entry)])[..|s.history|] == s.history;
    var c' := IssueStep(s, i, DrawFailed).calls[i];
    FreshInsert(s.calls, s.drawn, Replay(s.history), i, c', token, entry);
    EventKeepsInv(s, i, c', Issued(i, token, entry), s.tokens[token := entry]);
  }

  lemma ValidateKeepsInv(s: Broker, i: nat)
    requires Inv(s) && CallReady(s, i, DrawFailed) && s.calls[i].Validate?
    ensures Inv(ValidateStep(s, i))
  {
    var c := s.calls[i];
    var s' := ValidateStep(s, i);
    FreshMove(s.calls, s.drawn, Replay(s.history), i, s'.calls[i], s.drawn);
    if c.pc.Lookup? {
      LookupKeepsInv(s, i, s'.calls[i]);
    }
  }

  lemma LookupKeepsInv(s: Broker, i: nat, c': Call)
    requires Inv(s) && i < |s.calls| && s.calls[i].Validate? && Fresh(s.calls[i := c'], s.drawn, Replay(s.history))
    ensures var c := s.calls[i];
      var answer := LookupAnswer(s, c.token, c.scope, c.organization);
      var e := Checked(i, c.token, c.scope, c.organization, s.now, !s.wiped, answer);
      Inv(s.(calls := s.calls[i := c'], history := s.history + [e]))
  {
    var c := s.calls[i];
    var answer := LookupAnswer(s, c.token, c.scope, c.organization);
    var e := Checked(i, c.token, c.scope, c.organization, s.now, !s.wiped, answer);
    assert (s.history + [e])[..|s.history|] == s.history;
    if !s.wiped { LookupIsAsk(s, c.token, c.scope, c.organization); }
    EventKeepsInv(s, i, c', e, s.tokens);
  }

  lemma RevokeKeepsInv(s: Broker, i: nat)
    requires Inv(s) && CallReady(s, i, DrawFailed) && s.calls[i].Revoke?
    ensures Inv(RevokeStep(s, i))
  {
    var c := s.calls[i];
    var s' := RevokeStep(s, i);
    FreshMove(s.calls, s.drawn, Replay(s.history), i, s'.calls[i], s.drawn);
    if c.pc.Delete? {
      assert (s.history + [Revoked(i, c.token)])[..|s.history|] == s.history;
      EventKeepsInv(s, i, s'.calls[i], Revoked(i, c.token), s.tokens - {c.token});
    }
  }

  lemma StepKeepsInv(s: Broker, step: Step)
    requires Inv(s) && Enabled(s, step)
    ensures Inv(Apply(s, step))
  {
    match step
    case RunCall(i, draw) =>
      if s.calls[i].Issue? {
        IssueKeepsInv(s, i, draw);
      } else if s.calls[i].Validate? {
        ValidateKeepsInv(s, i);
      } else {
        RevokeKeepsInv(s, i);
      }
    case _ =>
  }

  lemma {:induction false} ExecKeepsInv(s: Broker, schedule: seq<Step>)
    requires Inv(s) && Exec(s, schedule).Some?
    ensures Inv(Exec(s, schedule).value)
  {
    if schedule != [] {
      ExecKeepsInv(s, schedule[..|schedule| - 1]);
      StepKeepsInv(Exec(s, schedule[..|schedule| - 1]).value, schedule[|schedule| - 1]);
    }
  }

  lemma ReachableIsSound(s: Broker)
    requires Reachable(s)
    ensures Inv(s)
  {
    var now: Time, reaping: bool, schedule: seq<Step> :| Exec(New(now, reaping), schedule) == Some(s);
    ExecKeepsInv(New(now, reaping), schedule);
  }
}
